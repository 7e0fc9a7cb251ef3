/** The business logic over the groups collection: thin compositions over
    the data-access layer's membership operations. */
module GroupsLogic {
  import opened Wrappers
  import opened Users
  import opened MongoOps
  import opened Groups

  /** The lowest role, given to a user added to a group (taken to be the
      enum's first value, 0). */
  const MEMBER: Level := 0

  const NOT_IMPLEMENTED := "Method not implemented."

  /** The stand-in user lookup: the id with a fixed name and hierarchy. */
  function GetUserById(userId: UserId): (u: User)
    ensures u.id == userId
    ensures u.name == "somename" && u.hierarchy == "some/hierarchy"
  {
    User(userId, "somename", "some/hierarchy")
  }

  /** The entry `addUser` stores for a user. */
  function MemberEntry(userId: UserId): (e: Member)
    ensures e.id == userId && e.level == MEMBER
    ensures e.name == Some("somename") && e.hierarchy == Some("some/hierarchy")
  {
    RoleEntry(GetUserById(userId), MEMBER)
  }

  class GroupsBL {
    const dal: GroupsDAL

    constructor (dal: GroupsDAL)
      ensures this.dal == dal
    {
      this.dal := dal;
    }

    /** `createGroup` throws: it is not implemented. */
    method CreateGroup(name: string, description: string) returns (r: Result<Group, string>)
      ensures r == Err(NOT_IMPLEMENTED)
    {
      r := Err(NOT_IMPLEMENTED);
    }

    /** `updateGroup` throws: it is not implemented. */
    method UpdateGroup(updated: map<string, Option<string>>) returns (r: Result<Group, string>)
      ensures r == Err(NOT_IMPLEMENTED)
    {
      r := Err(NOT_IMPLEMENTED);
    }

    /** `addUser`: the placeholder user with the MEMBER role is added, and the
        user's join request is removed in the same update. */
    method AddUser(userId: UserId, groupId: ObjectId) returns (ok: bool)
      requires dal.Valid()
      modifies dal
      ensures dal.Valid()
      ensures ok == (groupId in old(dal.groups))
      ensures ok ==> dal.groups == old(dal.groups)[groupId := old(dal.groups)[groupId].(
                users := AddToSet(old(dal.groups)[groupId].users, MemberEntry(userId)),
                joinRequests := Pull(old(dal.groups)[groupId].joinRequests, userId))]
      ensures ok ==> MemberEntry(userId) in dal.groups[groupId].users &&
                     userId !in dal.groups[groupId].joinRequests
      ensures !ok ==> dal.groups == old(dal.groups)
    {
      var user := GetUserById(userId);
      ok := dal.AddUserToGroup(groupId, RoleEntry(user, MEMBER));
    }

    /** `leaveOrRemoveUser`: the data-access removal, arguments reordered. */
    method LeaveOrRemoveUser(userId: UserId, groupId: ObjectId) returns (ok: bool)
      requires dal.Valid()
      modifies dal
      ensures dal.Valid()
      ensures ok == (groupId in old(dal.groups))
      ensures ok ==> dal.groups == old(dal.groups)[groupId := old(dal.groups)[groupId].(
                users := PullById(old(dal.groups)[groupId].users, userId))]
      ensures ok ==> FindMember(dal.groups[groupId].users, userId).None?
      ensures ok ==> forall other :: other != userId ==>
                FindMember(dal.groups[groupId].users, other) == FindMember(old(dal.groups)[groupId].users, other)
      ensures !ok ==> dal.groups == old(dal.groups)
    {
      ok := dal.RemoveUserFromGroup(groupId, userId);
    }

    /** `askJoinGroup`: adds a join request; membership is not checked. */
    method AskJoinGroup(userId: UserId, groupId: ObjectId) returns (ok: bool)
      requires dal.Valid()
      modifies dal
      ensures dal.Valid()
      ensures ok == (groupId in old(dal.groups))
      ensures ok ==> dal.groups == old(dal.groups)[groupId := old(dal.groups)[groupId].(
                joinRequests := AddToSet(old(dal.groups)[groupId].joinRequests, userId))]
      ensures !ok ==> dal.groups == old(dal.groups)
    {
      ok := dal.AddUserToJoinRequests(groupId, userId);
    }

    /** `cancelOrRejectJoinRequest`: the data-access removal, arguments reordered. */
    method CancelOrRejectJoinRequest(userId: UserId, groupId: ObjectId) returns (ok: bool)
      requires dal.Valid()
      modifies dal
      ensures dal.Valid()
      ensures ok == (groupId in old(dal.groups))
      ensures ok ==> dal.groups == old(dal.groups)[groupId := old(dal.groups)[groupId].(
                joinRequests := Pull(old(dal.groups)[groupId].joinRequests, userId))]
      ensures !ok ==> dal.groups == old(dal.groups)
    {
      ok := dal.RemoveUserFromJoinRequests(groupId, userId);
    }
  }

  /** Because a join request is added without looking at `users`, a current
      member can also have a pending join request. */
  lemma MemberCanAlsoRequestToJoin(g: Group, userId: UserId)
    requires FindMember(g.users, userId).Some?
    ensures var r := g.(joinRequests := AddToSet(g.joinRequests, userId));
            FindMember(r.users, userId).Some? && userId in r.joinRequests
  {
  }
}
