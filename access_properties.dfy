/** Properties that connect the membership operations of the two stores
    with the gates that read the membership they write. */
module AccessProperties {
  import opened Wrappers
  import opened Users
  import opened MongoOps
  import Missions
  import Groups
  import GroupsLogic
  import Auth

  /** A user added to a mission in one update gets past every gate up to the
      added permission, unless an earlier entry with the same `_id` exists:
      that entry is not replaced, and the gate keeps reading it. */
  lemma AddedUserGate(m: Missions.Mission, userId: UserId, permission: Level, now: Missions.Timestamp,
                      missionId: string, name: string, hierarchy: string, desired: Level, routePath: string)
    ensures var m' := Missions.ApplyUpdate(m, Missions.Stamp(Missions.AddUserToMissionQuery(userId, permission), now));
            var current := User(userId, name, hierarchy);
            (FindMember(m.users, userId).None? && desired <= permission ==>
               Auth.AuthPermission(Some(m'), missionId, current, desired, routePath) == Auth.Pass) &&
            (FindMember(m.users, userId).Some? ==>
               Auth.AuthPermission(Some(m'), missionId, current, desired, routePath) ==
               Auth.AuthPermission(Some(m), missionId, current, desired, routePath))
  {
    var e := Missions.PermissionEntry(userId, permission);
    if FindMember(m.users, userId).None? {
      if e !in m.users {
        assert IsFirstEntry(m.users + [e], userId, |m.users|);
        FindMemberFirst(m.users + [e], userId, |m.users|);
      }
    } else {
      if e !in m.users {
        FindMemberAppend(m.users, [e], userId);
      }
    }
  }

  /** After `addUser`, the user passes the group gate at the MEMBER role. */
  lemma AddedGroupMemberPasses(g: Groups.Group, userId: UserId, groupId: string, routePath: string)
    ensures var g' := Groups.AddUserDoc(g, GroupsLogic.MemberEntry(userId));
            Auth.AuthRole(Some(g'), groupId, GroupsLogic.GetUserById(userId), GroupsLogic.MEMBER, routePath) == Auth.Pass
  {
    var g' := Groups.AddUserDoc(g, GroupsLogic.MemberEntry(userId));
    assert FindMember(g'.users, userId).Some?;
  }

  /** Removing a user from a mission turns the gate's answer into not found. */
  lemma RemovedUserNotFound(m: Missions.Mission, userId: UserId, now: Missions.Timestamp, missionId: string,
                            current: User, desired: Level, routePath: string)
    requires current.id == userId
    ensures var m' := Missions.ApplyUpdate(m, Missions.Stamp(Missions.RemoveUserFromMissionQuery(userId), now));
            Auth.AuthPermission(Some(m'), missionId, current, desired, routePath) ==
            Auth.Fail(Auth.NotFoundError("user '" + userId + "' in mission '" + missionId + "'"))
  {
  }

  /** Removing one user from a mission leaves every other user's answer at
      the gate as it was. */
  lemma RemovalKeepsOtherMissionGates(m: Missions.Mission, userId: UserId, now: Missions.Timestamp,
                                      missionId: string, current: User, desired: Level, routePath: string)
    requires current.id != userId
    ensures var m' := Missions.ApplyUpdate(m, Missions.Stamp(Missions.RemoveUserFromMissionQuery(userId), now));
            Auth.AuthPermission(Some(m'), missionId, current, desired, routePath) ==
            Auth.AuthPermission(Some(m), missionId, current, desired, routePath)
  {
  }

  /** Removing one user from a group leaves every other user's answer at the
      gate as it was. */
  lemma RemovalKeepsOtherGroupGates(g: Groups.Group, userId: UserId, groupId: string, current: User,
                                    desired: Level, routePath: string)
    requires current.id != userId
    ensures var g' := g.(users := PullById(g.users, userId));
            Auth.AuthRole(Some(g'), groupId, current, desired, routePath) ==
            Auth.AuthRole(Some(g), groupId, current, desired, routePath)
  {
  }

  /** A mission's life, first half: a mission whose only member
      is its creator gets a join request from a second user, which is then
      granted at level 0; the request is gone and the new entry is last. */
  lemma ScenarioJoinThenGrant(m0: Missions.Mission, creatorId: UserId, u2: UserId,
                              t1: Missions.Timestamp, t2: Missions.Timestamp)
    requires m0.users == [Missions.PermissionEntry(creatorId, 2)] && m0.joinRequests == []
    requires creatorId != u2
    ensures var m1 := Missions.ApplyUpdate(m0, Missions.Stamp(Missions.AddToJoinRequestQuery(u2), t1));
            var m2 := Missions.ApplyUpdate(m1, Missions.Stamp(Missions.AddUserToMissionQuery(u2, 0), t2));
            m1.joinRequests == [u2] &&
            m2.users == [Missions.PermissionEntry(creatorId, 2), Missions.PermissionEntry(u2, 0)] &&
            m2.joinRequests == []
  {
    assert Pull([u2], u2) == Pull([u2][1..], u2);
  }

  /** Second half: the creator passes at the top level 2, the new member at
      level 0 is forbidden at level 2, and a third user is not found. */
  lemma ScenarioGates(m2: Missions.Mission, creator: User, u2: User, u3: User, routePath: string)
    requires m2.users == [Missions.PermissionEntry(creator.id, 2), Missions.PermissionEntry(u2.id, 0)]
    requires creator.id != u2.id && creator.id != u3.id && u2.id != u3.id
    ensures Auth.AuthPermission(Some(m2), m2.id, creator, 2, routePath) == Auth.Pass
    ensures Auth.AuthPermission(Some(m2), m2.id, u2, 2, routePath) ==
            Auth.Fail(Auth.ForbiddenError(Auth.GetMethodName(routePath), 0, 2))
    ensures Auth.AuthPermission(Some(m2), m2.id, u3, 0, routePath) ==
            Auth.Fail(Auth.NotFoundError("user '" + u3.id + "' in mission '" + m2.id + "'"))
  {
    assert IsFirstEntry(m2.users, creator.id, 0);
    FindMemberFirst(m2.users, creator.id, 0);
    assert IsFirstEntry(m2.users, u2.id, 1);
    FindMemberFirst(m2.users, u2.id, 1);
  }
}
