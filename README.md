# gouef/permission in Dafny

A model of the authorization engine of the Go library `gouef/permission`, with proofs about it.

**Entities.** Users, groups and roles are entities. Each has:
- an identifier;
- ordered `Parents` and `Children` lists, which the library keeps symmetric (`Graph.Symmetric`: one entity lists another as a child exactly when the other lists it as a parent);
- a permission table, action → resource → allowed.

**Resources.** A resource has:
- an identifier;
- at most one parent resource;
- a map of named sub-resources;
- a list of owner entities.

**Actions.** Five actions exist: `Create`, `Read`, `Update`, `Delete` and the wildcard `All`.

**Resolution.** `AccessControl.HasPermission` decides whether an entity may perform an action on a resource. It tries these steps in order and stops at the first that decides:
1. The entity is an owner of the resource: allow.
2. The entity has an explicit entry for this action: return that entry.
3. The entity has a wildcard allow: allow.
4. Some parent entity is granted (checked recursively): allow.
5. The parent resource grants this entity (checked recursively): allow.
6. Otherwise: deny.

**Module layout.**
- `permission.dfy` (`Permissions`) is the enumeration.
- `graph.dfy` (`Graph`) holds the two classes `Entity` and `Resource`. They must live together because each refers to the other: tables are keyed by resources, and owners are entities. The module also holds the value-level specifications of the in-place updates: `Put`/`PutAll` for the table, `Attach` for the sub-resource map.
- `access_control.dfy` (`Access`) is the `AccessControl` registry and the resolver.
- `resolution.dfy` (`Resolution`) states what the resolver decides, independently of how it searches. Its main result: access is granted exactly when a chain of steps to parent entities and parent resources, through undecided pairs only, reaches a pair that grants. It also proves the precedence rules one by one.
- `scenarios.dfy` (`Scenarios`) replays the sub-tests of tests/permission_test.go, generalised over the action asked where possible. Every sub-test has a scenario. "Entity as users and groups with subEntity" is replayed in two parts: `ContainmentScenario` covers the moderator group below "website", and `SubEntityMemberScenario` covers the basic user on "website/news/3". Its queries on "website" alone are those of `GroupMemberScenario`. Its owner query on "news/1" is covered only by the general `OwnerScenario`.
- `wrappers.dfy` holds `Option`.

**Shared state and queries.** The source mutates entities and resources in place, so they are classes.
- Every method's frame is field-granular. For example, `AddChildren` may change only this entity's `children` and the listed entities' `parents`. Each modelled operation's `ensures` gives the whole new state of what it may change. Each scenario builder that registers objects states both registry lists. Where a builder writes permissions, it states the decision each entity then holds for every action and resource.
- The permission table keeps the Go two-level shape, `map<Permission, map<Resource, bool>>`, keyed by object identity. A missing key at either level reads as "no decision" (`Lookup` returns `None`), which differs from an explicit `false`.
- The queries are functions. They read only the objects of a ghost `Scope` and never the registry's `entities` or `resources` lists. A `Scope` gives every entity and resource a rank that strictly decreases from a node to each of its parents. The resolver's termination rests on that precondition: acyclicity.

## Model

| member | source | states |
|---|---|---|
| Permissions.Permission.Value | permission.go:6-17 | each constant's underlying string; only the wildcard's is "ALL" |
| Permissions.AllPermissionsComplete | permission.go:6-17 | there are exactly five constants, every value is one of them, and none is listed twice |
| Permissions.ValueInjective | permission.go:8-16 | two constants have the same string exactly when they are the same constant, so each names its own table bucket |
| Permissions.WildcardIsDistinct | permission.go:8-16 | the wildcard differs (also as a string) from each of the four specific actions, so a query for a specific action reads two different buckets |
| Graph.Lookup | accessControl.go:139-140 | the tri-state read of the two-level table: a decision exists exactly when the bucket exists and holds the resource, and it is the stored value |
| Graph.EmptyTableIsEmpty | entity.go:20-25 | the table of a new entity has all five buckets, each empty, so every lookup is "no decision" |
| Graph.Put | entity.go:108-113 | one write: the bucket is created if missing, the written entry holds the new value, every other bucket and entry is unchanged |
| Graph.PutLookup | entity.go:108-113 | after one write, the written (action, resource) entry reads the value and every other entry reads as before |
| Graph.PutOverwrites | entity.go:112 | last write wins: a second write to the same entry yields the same table as the second write alone |
| Graph.PutAll | entity.go:88-105 | writing a list of actions adds exactly the listed buckets and leaves the other buckets as they were |
| Graph.PutAllLookup | entity.go:88-105 | after writing a list of actions, exactly the listed actions on that resource read the value; every other entry reads as before |
| Graph.PutAllOverwrites | entity.go:88-105 | a repeated Allow/Deny with the same list decides every listed entry by the second call (so Deny after Allow denies, and a repeated call changes nothing) |
| Graph.PutAllEmpty | entity.go:88-105 | an empty action list leaves the table unchanged |
| Graph.Attach | resource.go:65-72 | attaching a list adds exactly the attached identifiers to the key set |
| Graph.AttachStores | resource.go:65-72 | keys not attached keep their entry; each attached key holds a listed resource with that id; a later resource with the same id replaces an earlier one |
| Graph.AttachSnoc | resource.go:66-69 | attaching one more resource stores it under its id on top of the previous map |
| Graph.Entity.constructor | entity.go:19-33 | the given id, no parents, no children, all five buckets present and empty, so no decision for any action and resource |
| Graph.Entity.Decision | accessControl.go:145-146 | the entity's stored decision for an action on a resource: present exactly when the bucket holds the resource, and then the stored value |
| Graph.Entity.ParentExists | entity.go:135-137 | true exactly when the entity occurs in the parents list, by identity |
| Graph.Entity.ChildExists | entity.go:139-141 | true exactly when the entity occurs in the children list, by identity |
| Graph.Entity.CreateChild | entity.go:42-47 | a fresh entity with the id whose parents are exactly [this] and whose table is empty; this entity's children gain it at the end |
| Graph.Entity.AddChildren | entity.go:56-63 | the list is appended to the children as given (duplicates kept); each listed entity gains this one as a parent unless it already had it; nothing else changes, and the mutual recursion terminates |
| Graph.Entity.AddParents | entity.go:72-79 | the list is appended to the parents as given; each listed entity gains this one as a child unless it already had it; nothing else changes |
| Graph.Entity.Allow | entity.go:88-92 | the table becomes the old one with every listed action on the resource set to true |
| Graph.Entity.Deny | entity.go:101-105 | the table becomes the old one with every listed action on the resource set to false |
| Graph.Entity.AddPerm | entity.go:108-113 | the table becomes the old one with exactly the (action, resource) entry set, its bucket created first if missing |
| Graph.Entity.AddPermAll | entity.go:115-117 | AddPerm for the wildcard |
| Graph.Entity.AddPermCreate | entity.go:119-121 | AddPerm for Create |
| Graph.Entity.AddPermRead | entity.go:123-125 | AddPerm for Read |
| Graph.Entity.AddPermUpdate | entity.go:127-129 | AddPerm for Update |
| Graph.Entity.AddPermDelete | entity.go:131-133 | AddPerm for Delete |
| Graph.Resource.constructor | resource.go:17-23 | the given id, no parent, no sub-resources, no owners |
| Graph.Resource.CreateSub | resource.go:32-38 | a fresh, empty resource with the id whose parent is this one, stored under the id, so that GetSub(id) returns it |
| Graph.Resource.GetSub | resource.go:47-49 | a direct lookup in this resource's own map: null exactly when the id is absent, otherwise the stored sub-resource |
| Graph.Resource.CreateSubs | resource.go:57-62 | one fresh, empty direct child per id, stored under its id with this resource as parent; other keys untouched; returns this resource |
| Graph.Resource.AddSubs | resource.go:65-72 | every listed resource's parent becomes this one and the map becomes Attach of the list; only these fields change, so a previous parent keeps its stale entry; returns this resource |
| Graph.Resource.AddOwners | resource.go:81-84 | the owners are appended in order, duplicates kept; returns this resource |
| Access.AccessControl.constructor | accessControl.go:15-20 | both registries start empty |
| Access.AccessControl.CreateResource | accessControl.go:29-34 | a fresh detached resource with the id, appended to the resources |
| Access.AccessControl.AddResource | accessControl.go:43-46 | the resource is appended and earlier elements are kept |
| Access.AccessControl.CreateEntity | accessControl.go:55-59 | a fresh entity with the id and an empty table, appended to the entities |
| Access.AccessControl.AddEntity | accessControl.go:68-71 | the entity is appended and earlier elements are kept |
| Access.AccessControl.Allow | accessControl.go:81-84 | only the entity's (action, resource) entry changes, to true |
| Access.AccessControl.Deny | accessControl.go:94-97 | only the entity's (action, resource) entry changes, to false |
| Access.AccessControl.AddEntities | accessControl.go:107-109 | the list is appended and earlier elements are kept |
| Access.AccessControl.AddResources | accessControl.go:119-121 | the list is appended and earlier elements are kept |
| Access.AccessControl.HasPermission | accessControl.go:132-164 | owner, then explicit entry, then wildcard allow, then parents in order, then parent resource, then deny; its own ensures states that an owner is always granted, and the Resolution rows give its full meaning |
| Access.AccessControl.SomeParentGrants | accessControl.go:151-155 | the loop over parents from an index on is true exactly when some parent from there on is granted |
| Access.AccessControl.Can | accessControl.go:175-177 | equals HasPermission |
| Access.AccessControl.CanCreate | accessControl.go:188-190 | equals HasPermission for Create |
| Access.AccessControl.CanRead | accessControl.go:201-203 | equals HasPermission for Read |
| Access.AccessControl.CanUpdate | accessControl.go:214-216 | equals HasPermission for Update |
| Access.AccessControl.CanDelete | accessControl.go:227-229 | equals HasPermission for Delete |
| Resolution.HasPermissionIffGrantingPath | accessControl.go:132-164 | HasPermission holds exactly when a granting path exists: steps to parent entities and parent resources through undecided pairs, ending at ownership, an explicit allow, or a wildcard allow with no entry for the action |
| Resolution.GrantHasPath | accessControl.go:132-164 | every grant is justified by a granting path |
| Resolution.PathGrants | accessControl.go:132-164 | every granting path yields a grant |
| Resolution.OwnerOverride | accessControl.go:133-137 | an owner is granted every action, even against its own explicit deny |
| Resolution.ExplicitDecisionWins | accessControl.go:139-143 | for a non-owner, an explicit entry for the action is the answer, whatever the parents and the parent resource say |
| Resolution.WildcardFillsGap | accessControl.go:145-149 | a wildcard allow grants every action that has no explicit entry |
| Resolution.WildcardDenyFallsThrough | accessControl.go:145-149 | a wildcard false is not a deny: the answer is what the parent entities and the parent resource give |
| Resolution.UndecidedDefersToInheritance | accessControl.go:151-163 | when nothing decides locally, the answer is (some parent entity is granted) or (the parent resource grants), in both directions |
| Resolution.DefaultDeny | accessControl.go:163 | no owner, no entry for the action or the wildcard, no parents and no parent resource: denied |
| Resolution.FreshEntityDenied | accessControl.go:132-164 | a new entity without parents on a new resource is denied every action |
| Resolution.EntityInheritance | accessControl.go:151-155 | without an explicit entry, one granting parent suffices |
| Resolution.ResourceContainment | accessControl.go:157-161 | without an explicit entry, a grant on the parent resource carries over to the sub-resource |
| Resolution.DescendantInherits | accessControl.go:157-161 | a grant on an ancestor resource reaches every descendant along a containment chain with no entry for the action |
| Resolution.AncestorInherits | accessControl.go:151-155 | a grant held by an ancestor entity reaches every descendant along a parent chain with no entry for the action |
| Scenarios.DefaultDenyScenario | tests/permission_test.go:55-65 | a fresh entity on a fresh resource is denied whatever action is asked |
| Scenarios.OwnerScenario | tests/permission_test.go:132-143 | an owner is granted whatever action is asked, whatever entry it holds |
| Scenarios.WildcardWithDenyScenario | tests/permission_test.go:158-170 | after a wildcard allow and a deny of one action, an action is granted exactly when it is not the denied one and the denied one is not the wildcard; `Scenarios.SimpleDenyScenario` is the test's own instance (Read denied; Create, Update and Delete granted) |
| Scenarios.GroupGrantsListed | tests/permission_test.go:261-293 | a group under a denied root, after one Allow call, is granted exactly the listed actions, or everything when the wildcard is listed |
| Scenarios.MemberFollowsGroup | tests/permission_test.go:253-293 | a member with parents [root, group] and an empty table gets exactly what the group gets |
| Scenarios.GroupMemberScenario | tests/permission_test.go:241-294 | built through CreateEntity, CreateChild, AddChildren and Allow: the group and the member are both granted exactly the listed actions (or all, with the wildcard); `Scenarios.UsersAndGroupsScenario` instantiates it with the test's three groups |
| Scenarios.TestOneScenario | tests/permission_test.go:11-53 | "Test 1": user1 may read but not create "Web", user2 may not read it, group1 may create it |
| Scenarios.LinkTestOne | tests/permission_test.go:39-41 | AddChildren and then AddParents on both users leave the group listing each user once and each user listing the group twice |
| Scenarios.SingleGrantScenario | tests/permission_test.go:67-156 | one explicit allow, written through AccessControl.Allow or the matching AddPerm helper, grants exactly that action, or every action when it is the wildcard |
| Scenarios.EntityWithChildrenScenario | tests/permission_test.go:172-191 | a child allowed everything and denied Read is granted every action but Read; an unrelated fresh entity is granted nothing |
| Scenarios.EntityWithChildrenTwoScenario | tests/permission_test.go:193-214 | with the wildcard held by the parent and the links written twice, the child is granted every action but Read and the unrelated entity nothing |
| Scenarios.CreateDuplicateEdges | tests/permission_test.go:196-201 | after CreateChild, AddChildren and AddParents on the same pair, each direction holds two copies of the edge and no more |
| Scenarios.EntityAddParentsScenario | tests/permission_test.go:216-239 | the child that denies Read and Create is granted exactly Update, Delete and the wildcard through its parent; the unrelated entity allowed Read is granted exactly Read |
| Scenarios.AddParentsOutcome | tests/permission_test.go:230-238 | from the stored decisions of "Entity add parents", the two entities' answers for any action |
| Scenarios.BareRootDenied | accessControl.go:132-164 | an entity with no parents, an empty table and no ownership is denied every action on every resource, however deep |
| Scenarios.UserGroupOnChain | tests/permission_test.go:318 | a group allowed only Read on "website" holds Read and nothing else on "website", "news" and "news/3" |
| Scenarios.BasicUserAbove | tests/permission_test.go:311-315 | a member with parents [users, userGroup] and an entry only on "news/3" holds on "website" and "news" exactly what the group holds |
| Scenarios.BasicUserOnChain | tests/permission_test.go:324 | on "news/3", the member holds its own Update and what it or its group already holds above, nothing else |
| Scenarios.SubEntityMemberScenario | tests/permission_test.go:296-336 | the basic user is granted exactly Read and Update on "website/news/3": Update of its own, Read from its group two resource levels up |
| Graph.AddChildrenKeepsSymmetry | entity.go:56-63 | AddChildren among entities of a symmetric group keeps the group symmetric |
| Graph.AddParentsKeepsSymmetry | entity.go:72-79 | AddParents among entities of a symmetric group keeps the group symmetric |
| Graph.CreateChildKeepsSymmetry | entity.go:42-47 | CreateChild yields an entity outside the group, and the group extended by it is symmetric |
| Scenarios.ReparentScenario | resource.go:65-72 | attaching a sub-resource to a second container re-points its parent and leaves the first container's entry in place |
| Scenarios.ContainmentScenario | tests/permission_test.go:296-377 | a group allowed a list on "website" and given an empty Deny on "news" is granted on "news" and on "website/news/3" exactly what it holds on "website" |

## Left out

- user.go and group.go, the flat "section" variant, are not part of this model. They rely on a `SectionPermissions` type and an `ac.sections` field that `AccessControl` (accessControl.go:4-7) does not declare.
- `utils.InArray` (entity.go:136, 140) is an external package. It is modelled as sequence membership by identity.
- Cyclic graphs: the resolver has no cycle guard. On a cyclic entity or resource graph the Go search still answers whenever some node decides before an undecided (entity, resource) pair is re-entered. The deciding node can be an owner, an explicit entry, a wildcard allow, or an earlier parent that grants. For example, after `e.AddParents(e)` and `e.Allow(r, Read)`, the query for Read is answered at accessControl.go:139-141. The Go search recurses without bound only when it re-enters an undecided pair first, as the Create query on that same graph does. Every query here takes a ghost `Scope` whose ranks prove both parent relations acyclic. That precondition excludes every cyclic graph, including those on which the Go code does return an answer, so none of them is modelled. The ghost parameter is the only addition to the queries.
- Permission values outside the five constants: Go's `Permission` is a string type, so a caller can write `Permission("X")`. AddPerm then creates its bucket (entity.go:109-111). The datatype admits only the five constants. `Put` still models the bucket creation.
- Nil references (a nil entity, resource or owner) are not modelled: all references are non-null, except a resource's parent and the result of `GetSub`.
- Chained return values are kept (`self == this` in the contracts); they carry no other behaviour.
- Short-circuit order: the Go loops over owners and parents stop at the first hit. On the acyclic graphs modelled here, this matters only for efficiency, since the result is the same disjunction. Ownership is modelled as membership, and the parent loop keeps its order in `SomeParentGrants`. On a cyclic graph, the order of the parents decides whether the Go code answers at all, an earlier granting parent ending the search before a cycle is entered. The model does not capture this, because it excludes cyclic graphs.
- Concurrency: the Go structures are unsynchronised; the model is sequential.
- Go map iteration order plays no part: no core operation iterates over a map.
- Access.AccessControl.HasPermission states only the owner override in its own `ensures`. The rest of what it decides is stated by `Resolution.HasPermissionIffGrantingPath` and the precedence lemmas beside it.
