/** The sub-tests of tests/permission_test.go, replayed against the model:
    each method builds the objects through the modelled operations and
    states the outcomes the test asserts, mostly for any action asked.
    Every sub-test has a scenario; "Entity as users and groups with
    subEntity" is replayed in two parts (`ContainmentScenario` for the
    moderator group below "website", `SubEntityMemberScenario` for the basic
    user on "website/news/3"), and its queries on "website" alone are those
    of `GroupMemberScenario`. Its owner query on "news/1" is the general
    `OwnerScenario`, not replayed on that graph. */
module Scenarios {
  import opened Wrappers
  import opened Permissions
  import opened Graph
  import opened Access
  import opened Resolution

  /** "Test 1" (tests/permission_test.go:11-53): every asserted outcome
      comes from an explicit decision on "Web" itself. */
  method TestOneScenario() returns (user1Creates: bool, user1Reads: bool, user2Reads: bool, group1Creates: bool)
    ensures !user1Creates && user1Reads && !user2Reads && group1Creates
  {
    var ac := new AccessControl();
    var web, comments := BuildTestOneWeb();
    var user1, user2, group1 := BuildTestOneEntities(web);
    ac.AddResources([web]);
    ac.AddEntities([group1, user1, user2]);
    ghost var scope := Scope(map[group1 := 0, user1 := 1, user2 := 1], map[web := 0]);
    TwoMemberScope(group1, user1, user2, web);
    ExplicitDecisionWins(ac, user1, web, Create, false, scope);
    ExplicitDecisionWins(ac, user1, web, Read, true, scope);
    ExplicitDecisionWins(ac, user2, web, Read, false, scope);
    ExplicitDecisionWins(ac, group1, web, Create, true, scope);
    user1Creates := ac.CanCreate(user1, web, scope);
    user1Reads := ac.CanRead(user1, web, scope);
    user2Reads := ac.CanRead(user2, web, scope);
    group1Creates := ac.CanCreate(group1, web, scope);
  }

  /** A group with two members whose parent lists name it (once or more),
      over a single top-level resource, is ranked by a valid scope. */
  lemma TwoMemberScope(group: Entity, m1: Entity, m2: Entity, res: Resource)
    requires group != m1 && group != m2 && m1 != m2
    requires group.parents == [] && m1.parents == [group, group] && m2.parents == [group, group]
    requires res.parent == null
    ensures Scope(map[group := 0, m1 := 1, m2 := 1], map[res := 0]).Valid()
  {
    var scope := Scope(map[group := 0, m1 := 1, m2 := 1], map[res := 0]);
    forall e, i | e in scope.entityRank && 0 <= i < |e.parents|
      ensures e.parents[i] in scope.entityRank && scope.entityRank[e.parents[i]] < scope.entityRank[e]
    {
      assert e == m1 || e == m2;
      assert e.parents[i] == group;
    }
  }

  /** "Web" holding "comments", which holds "comment1" and "comment2"
      (tests/permission_test.go:17-22). */
  method BuildTestOneWeb() returns (web: Resource, comments: Resource)
    ensures fresh(web) && web.parent == null && web.owners == []
    ensures web.subResources == map["comments" := comments] && comments.parent == web
    ensures comments.subResources.Keys == {"comment1", "comment2"}
  {
    var webNode := new Resource("Web");
    comments := BuildComments();
    web := webNode.AddSubs([comments]);
    assert Ids([comments]) == {"comments"} by {
      assert comments in [comments];
    }
    AttachSnoc(map[], [], comments);
    assert [] + [comments] == [comments];
  }

  /** "comments" holding "comment1" and "comment2" (tests/permission_test.go:18-21). */
  method BuildComments() returns (comments: Resource)
    ensures fresh(comments) && comments.id == "comments" && comments.parent == null
    ensures comments.subResources.Keys == {"comment1", "comment2"}
  {
    var commentsNode := new Resource("comments");
    var comment1 := new Resource("comment1");
    var comment2 := new Resource("comment2");
    comments := commentsNode.AddSubs([comment1, comment2]);
    assert Ids([comment1, comment2]) == {"comment1", "comment2"} by {
      assert comment1 in [comment1, comment2] && comment2 in [comment1, comment2];
    }
  }

  /** The three entities of "Test 1" (tests/permission_test.go:25-41): their
      decisions on every action and resource, and the parent lists that the
      two linking passes leave behind (each member names the group twice). */
  method BuildTestOneEntities(web: Resource) returns (user1: Entity, user2: Entity, group1: Entity)
    ensures fresh(user1) && fresh(user2) && fresh(group1)
    ensures user1 != user2 && user1 != group1 && user2 != group1
    ensures forall q, s :: group1.Decision(q, s) == (if (q == Read || q == Create) && s == web then Some(true) else None)
    ensures forall q, s ::
      user1.Decision(q, s) == (if s == web && q == Read then Some(true) else if s == web && q == Create then Some(false) else None)
    ensures forall q, s :: user2.Decision(q, s) == (if q == Read && s == web then Some(false) else None)
    ensures group1.parents == [] && group1.children == [user1, user2]
    ensures user1.parents == [group1, group1] && user2.parents == [group1, group1]
  {
    user1 := new Entity("user1");
    user2 := new Entity("user2");
    group1 := new Entity("group1");
    GrantTestOne(web, user1, user2, group1);
    LinkTestOne(user1, user2, group1);
  }

  /** The permission writes of "Test 1" (tests/permission_test.go:30-36). */
  method GrantTestOne(web: Resource, user1: Entity, user2: Entity, group1: Entity)
    requires user1 != user2 && user1 != group1 && user2 != group1
    requires user1.permission == EmptyTable && user2.permission == EmptyTable && group1.permission == EmptyTable
    modifies user1`permission, user2`permission, group1`permission
    ensures forall q, s :: group1.Decision(q, s) == (if (q == Read || q == Create) && s == web then Some(true) else None)
    ensures forall q, s ::
      user1.Decision(q, s) == (if s == web && q == Read then Some(true) else if s == web && q == Create then Some(false) else None)
    ensures forall q, s :: user2.Decision(q, s) == (if q == Read && s == web then Some(false) else None)
  {
    group1.AddPermRead(web, true);
    group1.AddPermCreate(web, true);
    user1.AddPermRead(web, true);
    user1.AddPermCreate(web, false);
    user2.AddPermRead(web, false);
    forall q, s
      ensures group1.Decision(q, s) == (if (q == Read || q == Create) && s == web then Some(true) else None)
      ensures user1.Decision(q, s) ==
        (if s == web && q == Read then Some(true) else if s == web && q == Create then Some(false) else None)
      ensures user2.Decision(q, s) == (if q == Read && s == web then Some(false) else None)
    {
      EmptyTableIsEmpty(q, s);
      PutLookup(EmptyTable, Read, web, true, q, s);
      PutLookup(Put(EmptyTable, Read, web, true), Create, web, true, q, s);
      PutLookup(Put(EmptyTable, Read, web, true), Create, web, false, q, s);
      PutLookup(EmptyTable, Read, web, false, q, s);
    }
  }

  /** The links of "Test 1" (tests/permission_test.go:39-41): the group adopts
      both users, then each user adds the group as a parent once more. */
  method LinkTestOne(user1: Entity, user2: Entity, group1: Entity)
    requires user1 != user2 && user1 != group1 && user2 != group1
    requires user1.parents == [] && user2.parents == [] && group1.parents == []
    requires group1.children == []
    modifies user1`parents, user2`parents, group1`children
    ensures group1.parents == [] && group1.children == [user1, user2]
    ensures user1.parents == [group1, group1] && user2.parents == [group1, group1]
  {
    group1.AddChildren([user1, user2]);
    assert user1 in [user1, user2] && user2 in [user1, user2];
    user1.AddParents([group1]);
    assert group1 in [group1];
    user2.AddParents([group1]);
  }

  /** "Simple Test" (tests/permission_test.go:55-65): nothing set, nothing granted. */
  method DefaultDenyScenario(p: Permission) returns (granted: bool)
    ensures !granted
  {
    var ac := new AccessControl();
    var res := ac.CreateResource("news");
    var user := ac.CreateEntity("user");
    ghost var scope := Scope(map[user := 0], map[res := 0]);
    FreshEntityDenied(ac, user, res, scope);
    granted := ac.Can(user, res, p, scope);
  }

  /** "Simple Test Owner" (tests/permission_test.go:132-143): an owner is
      granted every action, even one it holds an explicit entry for. */
  method OwnerScenario(p: Permission, stored: bool) returns (granted: bool)
    ensures granted
  {
    var ac := new AccessControl();
    var res := ac.CreateResource("news");
    var user := ac.CreateEntity("user");
    user.AddPerm(p, res, stored);
    var _ := res.AddOwners([user]);
    ghost var scope := Scope(map[user := 0], map[res := 0]);
    assert user in res.owners;
    granted := ac.Can(user, res, p, scope);
  }

  /** "Simple Test Deny" (tests/permission_test.go:158-170), for any denied
      action and any asked action: a wildcard allow fills every action except
      the one explicitly denied, and denying the wildcard itself leaves nothing. */
  method WildcardWithDenyScenario(denied: Permission, p: Permission) returns (granted: bool)
    ensures granted <==> denied != All && p != denied
  {
    var ac := new AccessControl();
    var res, user := BuildWildcardDeny(ac, denied);
    ghost var scope := Scope(map[user := 0], map[res := 0]);
    assert scope.Valid();
    EmptyTableIsEmpty(p, res);
    EmptyTableIsEmpty(All, res);
    PutLookup(EmptyTable, All, res, true, p, res);
    PutLookup(Put(EmptyTable, All, res, true), denied, res, false, p, res);
    PutLookup(EmptyTable, All, res, true, All, res);
    PutLookup(Put(EmptyTable, All, res, true), denied, res, false, All, res);
    assert user.Decision(p, res) == if p == denied then Some(false) else if p == All then Some(true) else None;
    granted := ac.Can(user, res, p, scope);
  }

  /** The objects of `WildcardWithDenyScenario`: a fresh entity allowed the
      wildcard on a fresh resource and then denied `denied`. */
  method BuildWildcardDeny(ac: AccessControl, denied: Permission) returns (res: Resource, user: Entity)
    modifies ac`resources, ac`entities
    ensures ac.resources == old(ac.resources) + [res] && ac.entities == old(ac.entities) + [user]
    ensures res.owners == [] && res.parent == null && user.parents == []
    ensures user.permission == Put(Put(EmptyTable, All, res, true), denied, res, false)
  {
    res := ac.CreateResource("news");
    user := ac.CreateEntity("user");
    user.AddPermAll(res, true);
    var _ := ac.Deny(user, res, denied);
  }

  /** The test's own case: all allowed, read denied. */
  method SimpleDenyScenario() {
    var canRead := WildcardWithDenyScenario(Read, Read);
    var canCreate := WildcardWithDenyScenario(Read, Create);
    var canUpdate := WildcardWithDenyScenario(Read, Update);
    var canDelete := WildcardWithDenyScenario(Read, Delete);
    assert !canRead && canCreate && canUpdate && canDelete;
  }

  /** A root entity with no parents and no stored decision is denied
      everything on a resource without owners or containers. */
  ghost predicate DeniedRoot(root: Entity, r: Resource)
    reads root, r
  {
    r.owners == [] && r.parent == null && root.parents == [] && root.permission == EmptyTable
  }

  /** A group below a denied root whose table was filled by one `Allow` call:
      it is granted exactly the listed actions, or everything when the list
      holds the wildcard (tests/permission_test.go:275-293). */
  lemma GroupGrantsListed(ac: AccessControl, group: Entity, root: Entity, r: Resource,
                          ps: seq<Permission>, p: Permission, scope: Scope)
    requires scope.Valid() && group in scope.entityRank && root in scope.entityRank && r in scope.resourceRank
    requires DeniedRoot(root, r) && group.parents == [root]
    requires group.permission == PutAll(EmptyTable, ps, r, true)
    ensures ac.HasPermission(group, r, p, scope) <==> p in ps || All in ps
  {
    FreshEntityDenied(ac, root, r, scope);
    EmptyTableIsEmpty(p, r);
    EmptyTableIsEmpty(All, r);
    PutAllLookup(EmptyTable, ps, r, true, p, r);
    PutAllLookup(EmptyTable, ps, r, true, All, r);
    if p !in ps && All !in ps {
      UndecidedDefersToInheritance(ac, group, r, p, scope);
    }
  }

  /** A member with parents `[root, group]` and nothing stored of its own
      asks its parents in turn, and the denied root contributes nothing: the
      member gets exactly what the group gets (tests/permission_test.go:265-293). */
  lemma MemberFollowsGroup(ac: AccessControl, member: Entity, root: Entity, group: Entity, r: Resource,
                           p: Permission, scope: Scope)
    requires scope.Valid() && member in scope.entityRank && root in scope.entityRank
    requires group in scope.entityRank && r in scope.resourceRank
    requires DeniedRoot(root, r) && member.parents == [root, group] && member.permission == EmptyTable
    ensures ac.HasPermission(member, r, p, scope) == ac.HasPermission(group, r, p, scope)
  {
    FreshEntityDenied(ac, root, r, scope);
    EmptyTableIsEmpty(p, r);
    EmptyTableIsEmpty(All, r);
    UndecidedDefersToInheritance(ac, member, r, p, scope);
    assert member.parents[0] == root && member.parents[1] == group;
  }

  /** "Entity as users and groups" (tests/permission_test.go:241-294) for one
      group and one of its members: roots `users` and `groups`, a group created
      under `groups` and allowed `ps` on the resource, and a member created
      under `users` and added to the group. Asking for `p`, the group and the
      member both get it exactly when `ps` lists it or the wildcard. */
  method GroupMemberScenario(ps: seq<Permission>, p: Permission) returns (groupGranted: bool, memberGranted: bool)
    ensures groupGranted <==> p in ps || All in ps
    ensures memberGranted == groupGranted
  {
    var ac := new AccessControl();
    var res, users, groups, group, member := BuildGroupMember(ac, ps);
    ghost var scope := Scope(map[users := 0, groups := 0, group := 1, member := 2], map[res := 0]);
    assert scope.Valid();
    GroupGrantsListed(ac, group, groups, res, ps, p, scope);
    MemberFollowsGroup(ac, member, users, group, res, p, scope);
    groupGranted := ac.Can(group, res, p, scope);
    memberGranted := ac.Can(member, res, p, scope);
  }

  /** The objects of `GroupMemberScenario`, built through the modelled operations
      (tests/permission_test.go:242-263). */
  method BuildGroupMember(ac: AccessControl, ps: seq<Permission>)
    returns (res: Resource, users: Entity, groups: Entity, group: Entity, member: Entity)
    modifies ac`resources, ac`entities
    ensures ac.resources == old(ac.resources) + [res] && ac.entities == old(ac.entities) + [users, groups]
    ensures DeniedRoot(users, res) && DeniedRoot(groups, res)
    ensures group.parents == [groups] && group.permission == PutAll(EmptyTable, ps, res, true)
    ensures member.parents == [users, group] && member.permission == EmptyTable
    ensures users != groups && group != users && group != groups
    ensures member != users && member != groups && member != group
  {
    res := ac.CreateResource("news");
    users := ac.CreateEntity("users");
    groups := ac.CreateEntity("groups");
    group := groups.CreateChild("group");
    member := users.CreateChild("member");
    group.AddChildren([member]);
    assert member in [member];
    group.Allow(res, ps);
  }

  /** The three groups of the test: "user" may only read, "moderator" may
      read, create and update, "admin" holds the wildcard. */
  method UsersAndGroupsScenario() {
    var userRead, basicUserRead := GroupMemberScenario([Read], Read);
    var userCreate, basicUserCreate := GroupMemberScenario([Read], Create);
    assert userRead && basicUserRead && !userCreate && !basicUserCreate;
    var modUpdate, modUserUpdate := GroupMemberScenario([Read, Create, Update], Update);
    var modDelete, modUserDelete := GroupMemberScenario([Read, Create, Update], Delete);
    assert modUpdate && modUserUpdate && !modDelete && !modUserDelete;
    var adminDelete, warfacezDelete := GroupMemberScenario([All], Delete);
    assert adminDelete && warfacezDelete;
  }

  /** "Entity with children 2" (tests/permission_test.go:193-214): the same
      outcome as "Entity with children", with the wildcard held by the parent
      and the links written twice. */
  method EntityWithChildrenTwoScenario(p: Permission) returns (childGranted: bool, otherGranted: bool)
    ensures childGranted <==> p != Read
    ensures !otherGranted
  {
    var ac := new AccessControl();
    var res, users, warfacez, user := BuildEntityWithChildrenTwo(ac);
    ghost var scope := Scope(map[users := 0, warfacez := 1, user := 0], map[res := 0]);
    OneParentScope(users, warfacez, user, res);
    FreshEntityDenied(ac, user, res, scope);
    if p == Read {
      ExplicitDecisionWins(ac, warfacez, res, p, false, scope);
    } else {
      if p == All {
        ExplicitDecisionWins(ac, users, res, p, true, scope);
      } else {
        WildcardFillsGap(ac, users, res, p, scope);
      }
      UndecidedDefersToInheritance(ac, warfacez, res, p, scope);
      assert warfacez.parents[0] == users;
    }
    childGranted := ac.Can(warfacez, res, p, scope);
    otherGranted := ac.Can(user, res, p, scope);
  }

  /** The objects of `EntityWithChildrenTwoScenario` (tests/permission_test.go:196-203). */
  method BuildEntityWithChildrenTwo(ac: AccessControl) returns (res: Resource, users: Entity, warfacez: Entity, user: Entity)
    modifies ac`resources, ac`entities
    ensures ac.resources == old(ac.resources) + [res] && ac.entities == old(ac.entities) + [users, user]
    ensures res.owners == [] && res.parent == null
    ensures users.parents == [] && user.parents == [] && user.permission == EmptyTable
    ensures users.children == [warfacez, warfacez] && warfacez.parents == [users, users]
    ensures users != warfacez && user != warfacez && user != users
    ensures forall q, s :: users.Decision(q, s) == (if q == All && s == res then Some(true) else None)
    ensures forall q, s :: warfacez.Decision(q, s) == (if q == Read && s == res then Some(false) else None)
  {
    res, users, warfacez, user := CreateDuplicateEdges(ac);
    users.AddPermAll(res, true);
    var _ := ac.Deny(warfacez, res, Read);
    forall q, s
      ensures users.Decision(q, s) == (if q == All && s == res then Some(true) else None)
      ensures warfacez.Decision(q, s) == (if q == Read && s == res then Some(false) else None)
    {
      EmptyTableIsEmpty(q, s);
      PutLookup(EmptyTable, All, res, true, q, s);
      PutLookup(EmptyTable, Read, res, false, q, s);
    }
  }

  /** The entities and links of "Entity with children 2"
      (tests/permission_test.go:196-201): the forward edges are appended
      unconditionally, the inverse ones only when absent, so the repeated
      calls leave two copies of each edge and no more. */
  method CreateDuplicateEdges(ac: AccessControl) returns (res: Resource, users: Entity, warfacez: Entity, user: Entity)
    modifies ac`resources, ac`entities
    ensures ac.resources == old(ac.resources) + [res] && ac.entities == old(ac.entities) + [users, user]
    ensures res.owners == [] && res.parent == null
    ensures users.parents == [] && user.parents == []
    ensures users.children == [warfacez, warfacez] && warfacez.parents == [users, users]
    ensures fresh(users) && fresh(warfacez) && fresh(user)
    ensures users != warfacez && user != warfacez && user != users
    ensures users.permission == EmptyTable && warfacez.permission == EmptyTable && user.permission == EmptyTable
  {
    res := ac.CreateResource("news");
    users := ac.CreateEntity("users");
    warfacez := users.CreateChild("warfacez");
    users.AddChildren([warfacez]);
    assert warfacez in [warfacez];
    warfacez.AddParents([users]);
    assert users in [users];
    user := ac.CreateEntity("user");
  }

  /** Moving a sub-resource to a second container re-points its parent but
      leaves the first container's entry in place. */
  method ReparentScenario() returns (first: Resource, second: Resource, sub: Resource)
    ensures sub.parent == second
    ensures first.GetSub("x") == sub && second.GetSub("x") == sub
  {
    first := new Resource("first");
    second := new Resource("second");
    sub := first.CreateSub("x");
    var _ := second.AddSubs([sub]);
    assert sub in [sub] && Ids([sub]) == {"x"};
  }

  /** The containment part of "Entity as users and groups with subEntity"
      (tests/permission_test.go:296-377): a group allowed `ps` on "website"
      and given an empty `Deny` on "news" is asked about "website/news/3"
      and "news", where nothing is stored: on both it gets exactly what it
      gets on "website". */
  method ContainmentScenario(ps: seq<Permission>, p: Permission) returns (granted: bool, newsGranted: bool)
    ensures granted <==> p in ps || All in ps
    ensures newsGranted <==> p in ps || All in ps
  {
    var website, news, news3 := BuildWebsite();
    var group := new Entity("moderatorGroup");
    group.Allow(website, ps);
    group.Deny(news, []);
    ghost var scope := Scope(map[group := 0], map[website := 0, news := 1, news3 := 2]);
    assert scope.Valid();
    PutAllEmpty(PutAll(EmptyTable, ps, website, true), news, false);
    DeepDecisions(group, website, news, news3, ps, p);
    var ac := new AccessControl();
    UndecidedDefersToInheritance(ac, group, news3, p, scope);
    UndecidedDefersToInheritance(ac, group, news, p, scope);
    if !(p in ps || All in ps) {
      UndecidedDefersToInheritance(ac, group, website, p, scope);
    }
    granted := ac.Can(group, news3, p, scope);
    newsGranted := ac.Can(group, news, p, scope);
  }

  /** What a table written only on `website` says about the other two resources
      and about `website` itself. */
  lemma DeepDecisions(e: Entity, website: Resource, news: Resource, news3: Resource, ps: seq<Permission>, p: Permission)
    requires e.permission == PutAll(EmptyTable, ps, website, true)
    requires news != website && news3 != website
    ensures e.Decision(p, news) == None && e.Decision(All, news) == None
    ensures e.Decision(p, news3) == None && e.Decision(All, news3) == None
    ensures e.Decision(p, website) == (if p in ps then Some(true) else None)
    ensures e.Decision(All, website) == (if All in ps then Some(true) else None)
  {
    EmptyTableIsEmpty(p, news);
    EmptyTableIsEmpty(All, news);
    EmptyTableIsEmpty(p, news3);
    EmptyTableIsEmpty(All, news3);
    EmptyTableIsEmpty(p, website);
    EmptyTableIsEmpty(All, website);
    PutAllLookup(EmptyTable, ps, website, true, p, news);
    PutAllLookup(EmptyTable, ps, website, true, All, news);
    PutAllLookup(EmptyTable, ps, website, true, p, news3);
    PutAllLookup(EmptyTable, ps, website, true, All, news3);
    PutAllLookup(EmptyTable, ps, website, true, p, website);
    PutAllLookup(EmptyTable, ps, website, true, All, website);
  }

  /** "website", its sub-resource "news" and the latter's subs "1", "2", "3"
      (tests/permission_test.go:299-301, 323). */
  method BuildWebsite() returns (website: Resource, news: Resource, news3: Resource)
    ensures website.parent == null && news.parent == website && news3.parent == news
    ensures website.owners == [] && news.owners == [] && news3.owners == []
    ensures news != website && news3 != website && news3 != news
  {
    website := new Resource("website");
    news := website.CreateSub("news");
    var _ := news.CreateSubs(["1", "2", "3"]);
    assert "3" in ["1", "2", "3"];
    news3 := news.GetSub("3");
  }

  /** A root with an empty table is denied every action on every resource of
      a scope in which it owns nothing, however deep the resource. */
  lemma {:induction false} BareRootDenied(ac: AccessControl, e: Entity, r: Resource, p: Permission, scope: Scope)
    requires scope.Valid() && e in scope.entityRank && r in scope.resourceRank
    requires e.parents == [] && e.permission == EmptyTable
    requires forall x | x in scope.resourceRank :: e !in x.owners
    ensures !ac.HasPermission(e, r, p, scope)
    decreases scope.resourceRank[r]
  {
    EmptyTableIsEmpty(p, r);
    EmptyTableIsEmpty(All, r);
    UndecidedDefersToInheritance(ac, e, r, p, scope);
    if r.parent != null {
      BareRootDenied(ac, e, r.parent, p, scope);
    }
  }

  /** The basic user's queries on "website/news/3" in "Entity as users and
      groups with subEntity" (tests/permission_test.go:296-336): Update is
      allowed on the sub-resource itself, Read comes from the user's group
      holding it on "website", two levels up; nothing else is granted. */
  method SubEntityMemberScenario(p: Permission) returns (granted: bool)
    ensures granted <==> p == Read || p == Update
  {
    var website, news, news3, users, groups, userGroup, basicUser := BuildSubEntityMember();
    ghost var scope := Scope(map[users := 0, groups := 0, userGroup := 1, basicUser := 2],
                             map[website := 0, news := 1, news3 := 2]);
    SubEntityScope(website, news, news3, users, groups, userGroup, basicUser);
    var ac := new AccessControl();
    UserGroupOnChain(ac, website, news, news3, groups, userGroup, p, scope);
    BasicUserAbove(ac, website, news, news3, users, userGroup, basicUser, p, scope);
    BasicUserOnChain(ac, news, news3, users, userGroup, basicUser, p, scope);
    granted := ac.Can(basicUser, news3, p, scope);
  }

  /** The ranks of `SubEntityMemberScenario` form a valid scope. */
  lemma SubEntityScope(website: Resource, news: Resource, news3: Resource,
                       users: Entity, groups: Entity, userGroup: Entity, basicUser: Entity)
    requires website.parent == null && news.parent == website && news3.parent == news
    requires news != website && news3 != website && news3 != news
    requires users != groups && users != userGroup && users != basicUser
    requires groups != userGroup && groups != basicUser && userGroup != basicUser
    requires users.parents == [] && groups.parents == [] && userGroup.parents == [groups]
    requires basicUser.parents == [users, userGroup]
    ensures Scope(map[users := 0, groups := 0, userGroup := 1, basicUser := 2],
                  map[website := 0, news := 1, news3 := 2]).Valid()
  {
    var scope := Scope(map[users := 0, groups := 0, userGroup := 1, basicUser := 2],
                       map[website := 0, news := 1, news3 := 2]);
    forall e, i | e in scope.entityRank && 0 <= i < |e.parents|
      ensures e.parents[i] in scope.entityRank && scope.entityRank[e.parents[i]] < scope.entityRank[e]
    {
      assert e == userGroup || e == basicUser;
    }
  }

  /** The user group, allowed Read on "website" only, holds Read and nothing
      else on "website" and on each resource below it. */
  lemma UserGroupOnChain(ac: AccessControl, website: Resource, news: Resource, news3: Resource,
                         groups: Entity, userGroup: Entity, p: Permission, scope: Scope)
    requires scope.Valid() && groups in scope.entityRank && userGroup in scope.entityRank
    requires website in scope.resourceRank && news in scope.resourceRank && news3 in scope.resourceRank
    requires forall x | x in scope.resourceRank :: x.owners == []
    requires website.parent == null && news.parent == website && news3.parent == news
    requires groups.parents == [] && groups.permission == EmptyTable && userGroup.parents == [groups]
    requires forall q, s :: userGroup.Decision(q, s) == (if q == Read && s == website then Some(true) else None)
    ensures ac.HasPermission(userGroup, website, p, scope) <==> p == Read
    ensures ac.HasPermission(userGroup, news, p, scope) <==> p == Read
    ensures ac.HasPermission(userGroup, news3, p, scope) <==> p == Read
  {
    assert userGroup.parents[0] == groups;
    assert userGroup.Decision(p, website) == (if p == Read then Some(true) else None);
    assert userGroup.Decision(All, website) == None;
    BareRootDenied(ac, groups, website, p, scope);
    BareRootDenied(ac, groups, news, p, scope);
    BareRootDenied(ac, groups, news3, p, scope);
    if p == Read {
      ExplicitDecisionWins(ac, userGroup, website, p, true, scope);
    } else {
      UndecidedDefersToInheritance(ac, userGroup, website, p, scope);
    }
    assert userGroup.Decision(p, news) == None && userGroup.Decision(All, news) == None;
    UndecidedDefersToInheritance(ac, userGroup, news, p, scope);
    assert userGroup.Decision(p, news3) == None && userGroup.Decision(All, news3) == None;
    UndecidedDefersToInheritance(ac, userGroup, news3, p, scope);
  }

  /** The basic user, a child of "users" and of the user group, allowed Update
      on "news/3" only: on "website" and "news" it holds what the group holds. */
  lemma BasicUserAbove(ac: AccessControl, website: Resource, news: Resource, news3: Resource,
                       users: Entity, userGroup: Entity, basicUser: Entity, p: Permission, scope: Scope)
    requires scope.Valid() && users in scope.entityRank && userGroup in scope.entityRank && basicUser in scope.entityRank
    requires website in scope.resourceRank && news in scope.resourceRank
    requires forall x | x in scope.resourceRank :: x.owners == []
    requires website.parent == null && news.parent == website && news3 != website && news3 != news
    requires users.parents == [] && users.permission == EmptyTable && basicUser.parents == [users, userGroup]
    requires forall q, s :: basicUser.Decision(q, s) == (if q == Update && s == news3 then Some(true) else None)
    requires ac.HasPermission(userGroup, website, p, scope) <==> p == Read
    requires ac.HasPermission(userGroup, news, p, scope) <==> p == Read
    ensures ac.HasPermission(basicUser, website, p, scope) <==> p == Read
    ensures ac.HasPermission(basicUser, news, p, scope) <==> p == Read
  {
    assert basicUser.parents[0] == users && basicUser.parents[1] == userGroup;
    BareRootDenied(ac, users, website, p, scope);
    BareRootDenied(ac, users, news, p, scope);
    assert basicUser.Decision(p, website) == None && basicUser.Decision(All, website) == None;
    UndecidedDefersToInheritance(ac, basicUser, website, p, scope);
    assert basicUser.Decision(p, news) == None && basicUser.Decision(All, news) == None;
    UndecidedDefersToInheritance(ac, basicUser, news, p, scope);
  }

  /** On "news/3" the basic user holds Update of its own and whatever it
      already holds on "news" or the group holds there. */
  lemma BasicUserOnChain(ac: AccessControl, news: Resource, news3: Resource,
                         users: Entity, userGroup: Entity, basicUser: Entity, p: Permission, scope: Scope)
    requires scope.Valid() && users in scope.entityRank && userGroup in scope.entityRank && basicUser in scope.entityRank
    requires news in scope.resourceRank && news3 in scope.resourceRank
    requires forall x | x in scope.resourceRank :: x.owners == []
    requires news3.parent == news
    requires users.parents == [] && users.permission == EmptyTable && basicUser.parents == [users, userGroup]
    requires forall q, s :: basicUser.Decision(q, s) == (if q == Update && s == news3 then Some(true) else None)
    requires ac.HasPermission(userGroup, news3, p, scope) <==> p == Read
    requires ac.HasPermission(basicUser, news, p, scope) <==> p == Read
    ensures ac.HasPermission(basicUser, news3, p, scope) <==> p == Read || p == Update
  {
    if p == Update {
      ExplicitDecisionWins(ac, basicUser, news3, p, true, scope);
    } else {
      assert basicUser.parents[0] == users && basicUser.parents[1] == userGroup;
      BareRootDenied(ac, users, news3, p, scope);
      assert basicUser.Decision(p, news3) == None && basicUser.Decision(All, news3) == None;
      UndecidedDefersToInheritance(ac, basicUser, news3, p, scope);
    }
  }

  /** The objects the basic user's answers depend on in "Entity as users and
      groups with subEntity" (tests/permission_test.go:299-324); the other
      groups and users of the test are left out. */
  method BuildSubEntityMember() returns (website: Resource, news: Resource, news3: Resource,
                                         users: Entity, groups: Entity, userGroup: Entity, basicUser: Entity)
    ensures website.parent == null && news.parent == website && news3.parent == news
    ensures website.owners == [] && news.owners == [] && news3.owners == []
    ensures news != website && news3 != website && news3 != news
    ensures users != groups && users != userGroup && users != basicUser
    ensures groups != userGroup && groups != basicUser && userGroup != basicUser
    ensures users.parents == [] && groups.parents == [] && userGroup.parents == [groups]
    ensures basicUser.parents == [users, userGroup]
    ensures users.permission == EmptyTable && groups.permission == EmptyTable
    ensures forall q, s :: userGroup.Decision(q, s) == (if q == Read && s == website then Some(true) else None)
    ensures forall q, s :: basicUser.Decision(q, s) == (if q == Update && s == news3 then Some(true) else None)
  {
    website, news, news3 := BuildWebsite();
    users, groups, userGroup, basicUser := CreateSubEntityMembers();
    userGroup.Allow(website, [Read]);
    basicUser.Allow(news3, [Update]);
    forall q, s
      ensures userGroup.Decision(q, s) == (if q == Read && s == website then Some(true) else None)
      ensures basicUser.Decision(q, s) == (if q == Update && s == news3 then Some(true) else None)
    {
      EmptyTableIsEmpty(q, s);
      PutAllLookup(EmptyTable, [Read], website, true, q, s);
      PutAllLookup(EmptyTable, [Update], news3, true, q, s);
    }
  }

  /** "users" and "groups", the user group below "groups" and the basic user
      below "users", then linked below the user group as well
      (tests/permission_test.go:303-315). */
  method CreateSubEntityMembers() returns (users: Entity, groups: Entity, userGroup: Entity, basicUser: Entity)
    ensures fresh(users) && fresh(groups) && fresh(userGroup) && fresh(basicUser)
    ensures users != groups && users != userGroup && users != basicUser
    ensures groups != userGroup && groups != basicUser && userGroup != basicUser
    ensures users.parents == [] && groups.parents == [] && userGroup.parents == [groups]
    ensures basicUser.parents == [users, userGroup]
    ensures users.permission == EmptyTable && groups.permission == EmptyTable
    ensures userGroup.permission == EmptyTable && basicUser.permission == EmptyTable
  {
    users := new Entity("users");
    groups := new Entity("groups");
    userGroup := groups.CreateChild("userGroup");
    basicUser := users.CreateChild("basicUser");
    userGroup.AddChildren([basicUser]);
    assert basicUser in [basicUser];
  }

  /** "Simple Test All/Update/Create/Read/Delete/Allow"
      (tests/permission_test.go:67-156): one explicit allow, written through
      the matching `AddPerm*` helper or through `AccessControl.Allow`, grants
      exactly that action, or every action when it is the wildcard. */
  method SingleGrantScenario(allowed: Permission, viaRegistry: bool, p: Permission) returns (granted: bool)
    ensures granted <==> p == allowed || allowed == All
  {
    var ac := new AccessControl();
    var res, user := BuildSingleGrant(ac, allowed, viaRegistry);
    ghost var scope := Scope(map[user := 0], map[res := 0]);
    assert scope.Valid();
    EmptyTableIsEmpty(p, res);
    EmptyTableIsEmpty(All, res);
    PutLookup(EmptyTable, allowed, res, true, p, res);
    PutLookup(EmptyTable, allowed, res, true, All, res);
    granted := ac.Can(user, res, p, scope);
  }

  /** The objects of `SingleGrantScenario`. */
  method BuildSingleGrant(ac: AccessControl, allowed: Permission, viaRegistry: bool) returns (res: Resource, user: Entity)
    modifies ac`resources, ac`entities
    ensures ac.resources == old(ac.resources) + [res] && ac.entities == old(ac.entities) + [user]
    ensures res.owners == [] && res.parent == null && user.parents == []
    ensures user.permission == Put(EmptyTable, allowed, res, true)
  {
    res := ac.CreateResource("news");
    user := ac.CreateEntity("user");
    if viaRegistry {
      var _ := ac.Allow(user, res, allowed);
    } else {
      match allowed
      case All => user.AddPermAll(res, true);
      case Create => user.AddPermCreate(res, true);
      case Read => user.AddPermRead(res, true);
      case Update => user.AddPermUpdate(res, true);
      case Delete => user.AddPermDelete(res, true);
    }
  }

  /** "Entity with children" (tests/permission_test.go:172-191): a child
      holding a wildcard allow and a deny for Read is granted everything but
      Read, whatever its empty parent says; an unrelated entity gets nothing. */
  method EntityWithChildrenScenario(p: Permission) returns (childGranted: bool, otherGranted: bool)
    ensures childGranted <==> p != Read
    ensures !otherGranted
  {
    var ac := new AccessControl();
    var res, users, warfacez, user := BuildEntityWithChildren(ac);
    ghost var scope := Scope(map[users := 0, warfacez := 1, user := 0], map[res := 0]);
    assert scope.Valid();
    FreshEntityDenied(ac, user, res, scope);
    EmptyTableIsEmpty(p, res);
    EmptyTableIsEmpty(All, res);
    PutLookup(EmptyTable, All, res, true, p, res);
    PutLookup(Put(EmptyTable, All, res, true), Read, res, false, p, res);
    PutLookup(EmptyTable, All, res, true, All, res);
    PutLookup(Put(EmptyTable, All, res, true), Read, res, false, All, res);
    childGranted := ac.Can(warfacez, res, p, scope);
    otherGranted := ac.Can(user, res, p, scope);
  }

  /** The objects of `EntityWithChildrenScenario`. */
  method BuildEntityWithChildren(ac: AccessControl) returns (res: Resource, users: Entity, warfacez: Entity, user: Entity)
    modifies ac`resources, ac`entities
    ensures ac.resources == old(ac.resources) + [res] && ac.entities == old(ac.entities) + [users, user]
    ensures res.owners == [] && res.parent == null
    ensures users.parents == [] && user.parents == [] && warfacez.parents == [users]
    ensures users != warfacez && user != warfacez && user != users
    ensures users.permission == EmptyTable && user.permission == EmptyTable
    ensures warfacez.permission == Put(Put(EmptyTable, All, res, true), Read, res, false)
  {
    res := ac.CreateResource("news");
    users := ac.CreateEntity("users");
    warfacez := users.CreateChild("warfacez");
    user := ac.CreateEntity("user");
    warfacez.AddPermAll(res, true);
    var _ := ac.Deny(warfacez, res, Read);
  }

  /** "Entity add parents" (tests/permission_test.go:216-239): a child that
      denies Read and Create inherits everything else from a parent holding
      the wildcard; an unrelated entity allowed Read gets exactly Read. */
  method EntityAddParentsScenario(p: Permission) returns (childGranted: bool, otherGranted: bool)
    ensures childGranted <==> p != Read && p != Create
    ensures otherGranted <==> p == Read
  {
    var ac := new AccessControl();
    var res, users, warfacez, user := BuildEntityAddParents(ac);
    ghost var scope := Scope(map[users := 0, warfacez := 1, user := 0], map[res := 0]);
    OneParentScope(users, warfacez, user, res);
    AddParentsOutcome(ac, res, users, warfacez, user, p, scope);
    childGranted := ac.Can(warfacez, res, p, scope);
    otherGranted := ac.Can(user, res, p, scope);
  }

  /** Two roots and a child whose every parent is the first root, over a
      single top-level resource, are ranked by a valid scope. */
  lemma OneParentScope(root: Entity, child: Entity, other: Entity, res: Resource)
    requires root != child && other != child && other != root
    requires root.parents == [] && other.parents == [] && forall x | x in child.parents :: x == root
    requires res.parent == null
    ensures Scope(map[root := 0, child := 1, other := 0], map[res := 0]).Valid()
  {
    var scope := Scope(map[root := 0, child := 1, other := 0], map[res := 0]);
    forall e, i | e in scope.entityRank && 0 <= i < |e.parents|
      ensures e.parents[i] in scope.entityRank && scope.entityRank[e.parents[i]] < scope.entityRank[e]
    {
      assert e == child && e.parents[i] in child.parents;
    }
  }

  /** What the queries of "Entity add parents" answer, given the decisions
      the three entities hold. */
  lemma AddParentsOutcome(ac: AccessControl, res: Resource, users: Entity, warfacez: Entity, user: Entity,
                          p: Permission, scope: Scope)
    requires scope.Valid() && res in scope.resourceRank
    requires users in scope.entityRank && warfacez in scope.entityRank && user in scope.entityRank
    requires res.owners == [] && res.parent == null
    requires users.parents == [] && user.parents == [] && warfacez.parents == [users]
    requires users.Decision(p, res) == (if p == All then Some(true) else None)
    requires users.Decision(All, res) == Some(true)
    requires warfacez.Decision(p, res) == (if p == Read || p == Create then Some(false) else None)
    requires warfacez.Decision(All, res) == None
    requires user.Decision(p, res) == (if p == Read then Some(true) else None)
    requires user.Decision(All, res) == None
    ensures ac.HasPermission(warfacez, res, p, scope) <==> p != Read && p != Create
    ensures ac.HasPermission(user, res, p, scope) <==> p == Read
  {
    if p == Read {
      ExplicitDecisionWins(ac, user, res, p, true, scope);
    } else {
      DefaultDeny(ac, user, res, p, scope);
    }
    if p == Read || p == Create {
      ExplicitDecisionWins(ac, warfacez, res, p, false, scope);
    } else {
      if p == All {
        ExplicitDecisionWins(ac, users, res, p, true, scope);
      } else {
        WildcardFillsGap(ac, users, res, p, scope);
      }
      UndecidedDefersToInheritance(ac, warfacez, res, p, scope);
      assert warfacez.parents[0] == users;
    }
  }

  /** The objects of `EntityAddParentsScenario` (tests/permission_test.go:219-228);
      each entity's decisions are given for every action and resource. */
  method BuildEntityAddParents(ac: AccessControl) returns (res: Resource, users: Entity, warfacez: Entity, user: Entity)
    modifies ac`resources, ac`entities
    ensures ac.resources == old(ac.resources) + [res] && ac.entities == old(ac.entities) + [users, warfacez, user]
    ensures res.owners == [] && res.parent == null
    ensures users.parents == [] && user.parents == [] && warfacez.parents == [users]
    ensures users != warfacez && user != warfacez && user != users
    ensures forall q, s :: users.Decision(q, s) == (if q == All && s == res then Some(true) else None)
    ensures forall q, s :: warfacez.Decision(q, s) == (if (q == Read || q == Create) && s == res then Some(false) else None)
    ensures forall q, s :: user.Decision(q, s) == (if q == Read && s == res then Some(true) else None)
  {
    res, users, warfacez, user := CreateAddParentsEntities(ac);
    GrantAddParents(ac, res, users, warfacez, user);
  }

  /** The entities and links of "Entity add parents" (tests/permission_test.go:219-223). */
  method CreateAddParentsEntities(ac: AccessControl) returns (res: Resource, users: Entity, warfacez: Entity, user: Entity)
    modifies ac`resources, ac`entities
    ensures ac.resources == old(ac.resources) + [res] && ac.entities == old(ac.entities) + [users, warfacez, user]
    ensures res.owners == [] && res.parent == null
    ensures users.parents == [] && user.parents == [] && warfacez.parents == [users]
    ensures fresh(users) && fresh(warfacez) && fresh(user)
    ensures users != warfacez && user != warfacez && user != users
    ensures users.permission == EmptyTable && warfacez.permission == EmptyTable && user.permission == EmptyTable
  {
    res := ac.CreateResource("news");
    users := ac.CreateEntity("users");
    warfacez := ac.CreateEntity("warfacez");
    warfacez.AddParents([users]);
    assert users in [users];
    user := ac.CreateEntity("user");
  }

  /** The permission writes of "Entity add parents" (tests/permission_test.go:224-228),
      stated as the decision each entity then holds for every action and resource. */
  method GrantAddParents(ac: AccessControl, res: Resource, users: Entity, warfacez: Entity, user: Entity)
    requires users != warfacez && user != warfacez && user != users
    requires users.permission == EmptyTable && warfacez.permission == EmptyTable && user.permission == EmptyTable
    modifies users`permission, warfacez`permission, user`permission
    ensures forall q, s :: users.Decision(q, s) == (if q == All && s == res then Some(true) else None)
    ensures forall q, s :: warfacez.Decision(q, s) == (if (q == Read || q == Create) && s == res then Some(false) else None)
    ensures forall q, s :: user.Decision(q, s) == (if q == Read && s == res then Some(true) else None)
  {
    users.AddPermAll(res, true);
    var _ := ac.Deny(warfacez, res, Read);
    warfacez.Deny(res, [Create]);
    user.Allow(res, [Read]);
    forall q, s
      ensures users.Decision(q, s) == (if q == All && s == res then Some(true) else None)
      ensures warfacez.Decision(q, s) == (if (q == Read || q == Create) && s == res then Some(false) else None)
      ensures user.Decision(q, s) == (if q == Read && s == res then Some(true) else None)
    {
      EmptyTableIsEmpty(q, s);
      PutLookup(EmptyTable, All, res, true, q, s);
      PutLookup(EmptyTable, Read, res, false, q, s);
      PutAllLookup(Put(EmptyTable, Read, res, false), [Create], res, false, q, s);
      PutAllLookup(EmptyTable, [Read], res, true, q, s);
    }
  }
}
