/** The request gates: the token check that establishes the current user,
    and the per-resource checks that a mission or group exists, that the
    current user is a member of it, and that the member's level is high
    enough. */
module Auth {
  import opened Wrappers
  import opened Users
  import Missions
  import Groups

  /** The errors the gates pass on. */
  datatype AuthError =
    | MissingTokenError
    | InvalidTokenError(cause: string)
    | NotFoundError(desiredResource: string)
    | ForbiddenError(methodName: Option<string>, actual: Level, required: Level)

  /** `next()` lets the request through; `next(error)` rejects it. */
  datatype Outcome = Pass | Fail(error: AuthError)

  /** The route path's split on "/" is taken at index 1; an absent index
      yields `undefined`, here `None`. */
  const SEP := '/'

  // ---------------------------------------------------------------------
  // String splitting, as `String.prototype.split` with a one-character separator

  function IndexOf(s: string, c: char): (i: nat)
    requires c in s
    ensures i < |s| && s[i] == c && c !in s[..i]
  {
    if s[0] == c then 0
    else
      var k := IndexOf(s[1..], c);
      assert s[1..][..k] == s[1..k + 1];
      k + 1
  }

  /** `s.split(sep)`. */
  function Split(s: string, sep: char): (parts: seq<string>)
    ensures |parts| >= 1
    ensures forall i :: 0 <= i < |parts| ==> sep !in parts[i]
    ensures sep !in s <==> parts == [s]
    decreases |s|
  {
    if sep !in s then [s]
    else
      var i := IndexOf(s, sep);
      [s[..i]] + Split(s[i + 1..], sep)
  }

  /** `parts.join(sep)`. */
  function Join(parts: seq<string>, sep: char): string
    requires |parts| >= 1
  {
    if |parts| == 1 then parts[0] else parts[0] + [sep] + Join(parts[1..], sep)
  }

  /** Joining the pieces gives back the string. */
  lemma {:induction false} JoinSplit(s: string, sep: char)
    ensures Join(Split(s, sep), sep) == s
    decreases |s|
  {
    if sep in s {
      var i := IndexOf(s, sep);
      JoinSplit(s[i + 1..], sep);
      assert s == s[..i] + [sep] + s[i + 1..];
    }
  }

  /** The first separator after a separator-free prefix is the one just after it. */
  lemma {:induction false} IndexOfAfterPrefix(p: string, sep: char, t: string)
    requires sep !in p
    ensures IndexOf(p + [sep] + t, sep) == |p|
    decreases |p|
  {
    var s := p + [sep] + t;
    if |p| > 0 {
      assert s[0] == p[0] && s[0] != sep;
      assert s[1..] == p[1..] + [sep] + t;
      IndexOfAfterPrefix(p[1..], sep, t);
    }
  }

  /** Splitting at the first separator: the piece before it, then the split of the rest. */
  lemma SplitAfterPrefix(p: string, sep: char, t: string)
    requires sep !in p
    ensures Split(p + [sep] + t, sep) == [p] + Split(t, sep)
  {
    var s := p + [sep] + t;
    IndexOfAfterPrefix(p, sep, t);
    assert s[..|p|] == p;
    assert s[|p| + 1..] == t;
  }

  /** Splitting a join of separator-free pieces gives back the pieces. */
  lemma {:induction false} SplitJoin(parts: seq<string>, sep: char)
    requires |parts| >= 1
    requires forall i :: 0 <= i < |parts| ==> sep !in parts[i]
    ensures Split(Join(parts, sep), sep) == parts
    decreases |parts|
  {
    if |parts| > 1 {
      SplitAfterPrefix(parts[0], sep, Join(parts[1..], sep));
      SplitJoin(parts[1..], sep);
      assert parts == [parts[0]] + parts[1..];
    }
  }

  /** `request.route.path.split('/')[1]`. */
  function GetMethodName(routePath: string): (r: Option<string>)
    ensures r.None? <==> SEP !in routePath
    ensures r.Some? ==> SEP !in r.value
  {
    var parts := Split(routePath, SEP);
    if |parts| > 1 then Some(parts[1]) else None
  }

  /** For a route path `/seg`, the method name is `seg`. */
  lemma MethodNameOfShortRoute(seg: string)
    requires SEP !in seg
    ensures GetMethodName([SEP] + seg) == Some(seg)
  {
    assert [SEP] + seg == [] + [SEP] + seg;
    SplitAfterPrefix([], SEP, seg);
  }

  /** For a route path `/seg/rest`, the method name is `seg`. */
  lemma MethodNameOfLongRoute(seg: string, rest: string)
    requires SEP !in seg
    ensures GetMethodName([SEP] + seg + [SEP] + rest) == Some(seg)
  {
    var tail := seg + [SEP] + rest;
    assert [SEP] + seg + [SEP] + rest == [] + [SEP] + tail;
    SplitAfterPrefix([], SEP, tail);
    SplitAfterPrefix(seg, SEP, rest);
  }

  // ---------------------------------------------------------------------
  // The token check

  /** A missing cookie and the empty string are the falsy tokens. */
  predicate IsFalsy(token: Option<string>) {
    token.None? || token == Some("")
  }

  /** What `authentication` decides: no token, a token `verify` rejects (with
      the reason it throws), or the claim `verify` returns. `verify` stands
      for the signature check, which this model does not open. */
  function Authenticate(token: Option<string>, verify: string -> Result<User, string>): (r: Result<User, AuthError>)
    ensures IsFalsy(token) ==> r == Err(MissingTokenError)
    ensures r.Ok? ==> !IsFalsy(token) && verify(token.value) == Ok(r.value)
    ensures r.Err? && !IsFalsy(token) ==>
              verify(token.value).Err? && r.error == InvalidTokenError(verify(token.value).error)
  {
    if IsFalsy(token) then Err(MissingTokenError)
    else match verify(token.value)
      case Ok(claim) => Ok(claim)
      case Err(reason) => Err(InvalidTokenError(reason))
  }

  /** With no token, `verify` is never consulted: any two verifiers agree. */
  lemma MissingTokenIgnoresVerify(token: Option<string>, v1: string -> Result<User, string>,
                                  v2: string -> Result<User, string>)
    requires IsFalsy(token)
    ensures Authenticate(token, v1) == Authenticate(token, v2) == Err(MissingTokenError)
  {
  }

  /** `response.locals`, of which the token check writes `currentUser`. */
  class ResponseLocals {
    var currentUser: Option<User>

    constructor ()
      ensures currentUser.None?
    {
      currentUser := None;
    }

    /** `authentication()`: on success `currentUser` is the claim and no error
        is passed on; on failure `currentUser` is left as it was. */
    method Authentication(token: Option<string>, verify: string -> Result<User, string>)
      returns (err: Option<AuthError>)
      modifies this
      ensures Authenticate(token, verify).Ok? ==>
                err.None? && currentUser == Some(Authenticate(token, verify).value)
      ensures Authenticate(token, verify).Err? ==>
                err == Some(Authenticate(token, verify).error) && currentUser == old(currentUser)
    {
      if token.None? || token.value == "" {
        return Some(MissingTokenError);
      }
      var verified := verify(token.value);
      if verified.Err? {
        return Some(InvalidTokenError(verified.error));
      }
      currentUser := Some(verified.value);
      err := None;
    }
  }

  // ---------------------------------------------------------------------
  // The resource gates

  /** The shared decision of the two gates, in order: the resource is absent;
      the actor has no `users` entry; the first entry's level is below the
      desired one; otherwise pass. */
  function Gate(users: Option<seq<Member>>, actorId: UserId, desired: Level,
                resourceMissing: string, memberMissing: string, methodName: Option<string>): (r: Outcome)
    ensures users.None? ==> r == Fail(NotFoundError(resourceMissing))
    ensures users.Some? && (forall i :: 0 <= i < |users.value| ==> users.value[i].id != actorId) ==>
              r == Fail(NotFoundError(memberMissing))
    ensures r.Pass? <==>
              users.Some? && exists i :: IsFirstEntry(users.value, actorId, i) && users.value[i].level >= desired
    ensures r.Fail? && r.error.ForbiddenError? <==>
              users.Some? && exists i :: IsFirstEntry(users.value, actorId, i) && users.value[i].level < desired
    ensures r.Fail? && r.error.ForbiddenError? ==>
              r.error.methodName == methodName && r.error.required == desired && r.error.actual < desired &&
              exists i :: IsFirstEntry(users.value, actorId, i) && users.value[i].level == r.error.actual
  {
    if users.None? then Fail(NotFoundError(resourceMissing))
    else
      FindMemberIsFirstEntry(users.value, actorId);
      match FindMember(users.value, actorId)
      case None => Fail(NotFoundError(memberMissing))
      case Some(entry) =>
        if entry.level < desired then Fail(ForbiddenError(methodName, entry.level, desired))
        else Pass
  }

  function UsersOf(mission: Option<Missions.Mission>): Option<seq<Member>> {
    if mission.Some? then Some(mission.value.users) else None
  }

  function GroupUsersOf(group: Option<Groups.Group>): Option<seq<Member>> {
    if group.Some? then Some(group.value.users) else None
  }

  /** `authPermission(desired)` on the mission that `getMissionById(missionId)`
      found (`None`: not found). */
  function AuthPermission(mission: Option<Missions.Mission>, missionId: string, currentUser: User,
                          desired: Level, routePath: string): (r: Outcome)
    ensures mission.None? ==> r == Fail(NotFoundError("mission with id: " + missionId))
    ensures mission.Some? && FindMember(mission.value.users, currentUser.id).None? ==>
              r == Fail(NotFoundError("user '" + currentUser.id + "' in mission '" + missionId + "'"))
    ensures r.Pass? <==> mission.Some? && exists i :: IsFirstEntry(mission.value.users, currentUser.id, i) &&
                                                     mission.value.users[i].level >= desired
    ensures r.Fail? && r.error.ForbiddenError? ==>
              r.error.methodName == GetMethodName(routePath) && r.error.required == desired && r.error.actual < desired
  {
    Gate(UsersOf(mission), currentUser.id, desired,
         "mission with id: " + missionId,
         "user '" + currentUser.id + "' in mission '" + missionId + "'",
         GetMethodName(routePath))
  }

  /** How the absent group interpolates into the not-found message: the
      store's lookup yields `null`. */
  const ABSENT_GROUP := "null"

  /** `authRole(desired)` on the group that `getGroupById(groupId)` found. */
  function AuthRole(group: Option<Groups.Group>, groupId: string, currentUser: User,
                    desired: Level, routePath: string): (r: Outcome)
    ensures group.None? ==> r == Fail(NotFoundError("group with id: " + ABSENT_GROUP))
    ensures group.Some? && FindMember(group.value.users, currentUser.id).None? ==>
              r == Fail(NotFoundError("user '" + currentUser.id + "' in groups '" + groupId + "'"))
    ensures r.Pass? <==> group.Some? && exists i :: IsFirstEntry(group.value.users, currentUser.id, i) &&
                                                   group.value.users[i].level >= desired
    ensures r.Fail? && r.error.ForbiddenError? ==>
              r.error.methodName == GetMethodName(routePath) && r.error.required == desired && r.error.actual < desired
  {
    Gate(GroupUsersOf(group), currentUser.id, desired,
         "group with id: " + ABSENT_GROUP,
         "user '" + currentUser.id + "' in groups '" + groupId + "'",
         GetMethodName(routePath))
  }

  /** An absent mission is reported, naming the mission id, before any
      membership lookup. */
  lemma AbsentMissionNotFound(missionId: string, currentUser: User, desired: Level, routePath: string)
    ensures AuthPermission(None, missionId, currentUser, desired, routePath) ==
            Fail(NotFoundError("mission with id: " + missionId))
  {
  }

  /** The group-not-found message interpolates the absent group, so it is the
      same whatever group id was asked for. */
  lemma AbsentGroupMessageIgnoresId(g1: string, g2: string, currentUser: User, desired: Level, routePath: string)
    ensures AuthRole(None, g1, currentUser, desired, routePath) ==
            AuthRole(None, g2, currentUser, desired, routePath) ==
            Fail(NotFoundError("group with id: null"))
  {
  }

  /** A user with no entry in the mission is not found, never forbidden. */
  lemma NonMemberNotFound(m: Missions.Mission, missionId: string, currentUser: User, desired: Level, routePath: string)
    requires forall i :: 0 <= i < |m.users| ==> m.users[i].id != currentUser.id
    ensures AuthPermission(Some(m), missionId, currentUser, desired, routePath) ==
            Fail(NotFoundError("user '" + currentUser.id + "' in mission '" + missionId + "'"))
  {
  }

  /** With an entry, the request passes exactly when the first entry's level
      is at least the desired one (so equal levels pass), and is otherwise
      forbidden, naming the route's method, the actual and the desired level. */
  lemma MemberLevelDecides(m: Missions.Mission, missionId: string, currentUser: User, desired: Level,
                           routePath: string, i: int)
    requires IsFirstEntry(m.users, currentUser.id, i)
    ensures m.users[i].level >= desired ==> AuthPermission(Some(m), missionId, currentUser, desired, routePath) == Pass
    ensures m.users[i].level < desired ==>
              AuthPermission(Some(m), missionId, currentUser, desired, routePath) ==
              Fail(ForbiddenError(GetMethodName(routePath), m.users[i].level, desired))
  {
    FindMemberFirst(m.users, currentUser.id, i);
  }

  /** The same four outcomes for groups and roles. */
  lemma RoleLevelDecides(g: Groups.Group, groupId: string, currentUser: User, desired: Level,
                         routePath: string, i: int)
    requires IsFirstEntry(g.users, currentUser.id, i)
    ensures g.users[i].level >= desired ==> AuthRole(Some(g), groupId, currentUser, desired, routePath) == Pass
    ensures g.users[i].level < desired ==>
              AuthRole(Some(g), groupId, currentUser, desired, routePath) ==
              Fail(ForbiddenError(GetMethodName(routePath), g.users[i].level, desired))
  {
    FindMemberFirst(g.users, currentUser.id, i);
  }
}
