/** The older revision of the request gates, kept in the logger package:
    the same token check, `authorization` for missions and `gauthorization`
    for groups, with the method name taken inline from the route path. */
module LegacyAuth {
  import opened Wrappers
  import opened Users
  import Missions
  import Groups
  import Auth

  /** `authentication` of the older revision. */
  function Authenticate(token: Option<string>, verify: string -> Result<User, string>): (r: Result<User, Auth.AuthError>)
    ensures token.None? || token == Some("") ==> r == Err(Auth.MissingTokenError)
    ensures r.Ok? ==> token.Some? && token.value != "" && verify(token.value) == Ok(r.value)
  {
    if token.None? || token.value == "" then Err(Auth.MissingTokenError)
    else match verify(token.value)
      case Ok(claim) => Ok(claim)
      case Err(reason) => Err(Auth.InvalidTokenError(reason))
  }

  /** `authorization(desired)` on the mission `getMissionById(missionId)` found. */
  function Authorization(mission: Option<Missions.Mission>, missionId: string, currentUser: User,
                         desired: Level, routePath: string): (r: Auth.Outcome)
    ensures mission.None? ==> r == Auth.Fail(Auth.NotFoundError("mission with id: " + missionId))
    ensures r.Pass? <==> mission.Some? && exists i :: IsFirstEntry(mission.value.users, currentUser.id, i) &&
                                                     mission.value.users[i].level >= desired
    ensures r.Fail? && r.error.ForbiddenError? ==>
              r.error.required == desired && r.error.actual < desired &&
              (r.error.methodName.Some? <==> '/' in routePath)
  {
    var segments := Auth.Split(routePath, '/');
    Auth.Gate(Auth.UsersOf(mission), currentUser.id, desired,
              "mission with id: " + missionId,
              "user '" + currentUser.id + "' in mission '" + missionId + "'",
              if |segments| > 1 then Some(segments[1]) else None)
  }

  /** `gauthorization(desired)` on the group `getGroupById(groupId)` found. */
  function GAuthorization(group: Option<Groups.Group>, groupId: string, currentUser: User,
                          desired: Level, routePath: string): (r: Auth.Outcome)
    ensures group.None? ==> r == Auth.Fail(Auth.NotFoundError("group with id: " + Auth.ABSENT_GROUP))
    ensures r.Pass? <==> group.Some? && exists i :: IsFirstEntry(group.value.users, currentUser.id, i) &&
                                                   group.value.users[i].level >= desired
    ensures r.Fail? && r.error.ForbiddenError? ==>
              r.error.required == desired && r.error.actual < desired &&
              (r.error.methodName.Some? <==> '/' in routePath)
  {
    var segments := Auth.Split(routePath, '/');
    Auth.Gate(Auth.GroupUsersOf(group), currentUser.id, desired,
              "group with id: " + Auth.ABSENT_GROUP,
              "user '" + currentUser.id + "' in groups '" + groupId + "'",
              if |segments| > 1 then Some(segments[1]) else None)
  }

  /** The older token check decides exactly as the current one. */
  lemma AuthenticateAgrees(token: Option<string>, verify: string -> Result<User, string>)
    ensures Authenticate(token, verify) == Auth.Authenticate(token, verify)
  {
  }

  /** The older mission gate gives the current gate's outcome on every input:
      an absent mission and an absent member are not found, a lower
      permission is forbidden, an equal or higher one passes. */
  lemma AuthorizationAgrees(mission: Option<Missions.Mission>, missionId: string, currentUser: User,
                            desired: Level, routePath: string)
    ensures Authorization(mission, missionId, currentUser, desired, routePath) ==
            Auth.AuthPermission(mission, missionId, currentUser, desired, routePath)
  {
  }

  /** The older group gate gives the current gate's outcome on every input. */
  lemma GAuthorizationAgrees(group: Option<Groups.Group>, groupId: string, currentUser: User,
                             desired: Level, routePath: string)
    ensures GAuthorization(group, groupId, currentUser, desired, routePath) ==
            Auth.AuthRole(group, groupId, currentUser, desired, routePath)
  {
  }
}
