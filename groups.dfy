/** The groups collection: the stored group record and the collection as a
    class whose methods update one stored document in place. Unlike the
    missions collection, group updates stamp no time and no state. */
module Groups {
  import opened Wrappers
  import opened Users
  import opened MongoOps

  type ObjectId = string

  /** A stored group. `name` and `description` are not declared on the group
      record but are written by `updateGroup` (they are the fields of the
      base group), so the stored document may or may not have them. */
  datatype Group = Group(
    id: ObjectId,
    creator: User,
    users: seq<Member>,
    joinRequests: seq<UserId>,
    name: Option<string>,
    description: Option<string>)

  /** The `users` entry of a whole user with a role: `{ ...user, role }`. */
  function RoleEntry(user: User, role: Level): (e: Member)
    ensures e.id == user.id && e.level == role
    ensures e.name == Some(user.name) && e.hierarchy == Some(user.hierarchy)
  {
    Member(user.id, Some(user.name), Some(user.hierarchy), role)
  }

  /** `$addToSet: { users: entry }, $pull: { joinRequests: entry._id }`. */
  function AddUserDoc(g: Group, entry: Member): (r: Group)
    ensures entry in r.users && entry.id !in r.joinRequests
    ensures forall e :: e in g.users ==> e in r.users
  {
    g.(users := AddToSet(g.users, entry), joinRequests := Pull(g.joinRequests, entry.id))
  }

  /** `$set: baseGroup` for a patch whose undefined properties are gone. */
  function SetDoc(g: Group, patch: map<string, string>): (r: Group)
    ensures r.id == g.id && r.creator == g.creator && r.users == g.users && r.joinRequests == g.joinRequests
    ensures "name" !in patch ==> r.name == g.name
    ensures "description" !in patch ==> r.description == g.description
    ensures "name" in patch ==> r.name == Some(patch["name"])
    ensures "description" in patch ==> r.description == Some(patch["description"])
  {
    g.(name := if "name" in patch then Some(patch["name"]) else g.name,
       description := if "description" in patch then Some(patch["description"]) else g.description)
  }

  /** Asking to join twice is the same as asking once; cancelling afterwards
      restores `joinRequests` when the user had not asked before. */
  lemma JoinRequestsSetSemantics(g: Group, userId: UserId)
    ensures AddToSet(AddToSet(g.joinRequests, userId), userId) == AddToSet(g.joinRequests, userId)
    ensures userId !in g.joinRequests ==> Pull(AddToSet(g.joinRequests, userId), userId) == g.joinRequests
  {
    AddToSetIdempotent(g.joinRequests, userId);
    if userId !in g.joinRequests {
      AddThenPullRestores(g.joinRequests, userId);
    }
  }

  class GroupsDAL {
    /** The stored documents, by `_id`. */
    var groups: map<ObjectId, Group>

    ghost predicate Valid()
      reads this
    {
      forall id :: id in groups ==> groups[id].id == id
    }

    constructor (initial: map<ObjectId, Group>)
      requires forall id :: id in initial ==> initial[id].id == id
      ensures Valid() && groups == initial
    {
      groups := initial;
    }

    /** `find$({})`: every stored group. */
    function GetGroups(): (r: set<Group>)
      reads this
      ensures forall g :: g in r <==> exists id :: id in groups && groups[id] == g
    {
      groups.Values
    }

    /** `findOne$({ _id: groupId })`: the group with that id, or none. */
    function GetGroupById(groupId: ObjectId): (r: Option<Group>)
      reads this
      requires Valid()
      ensures r.Some? <==> groupId in groups
      ensures r.Some? ==> r.value.id == groupId && r.value in GetGroups()
    {
      if groupId in groups then Some(groups[groupId]) else None
    }

    /** `updateGroup`: drop undefined properties, `$set` the rest and return
        the document after the update. */
    method UpdateGroup(groupId: ObjectId, baseGroup: map<string, Option<string>>) returns (r: Option<Group>)
      requires Valid()
      modifies this
      ensures Valid()
      ensures r.Some? <==> groupId in old(groups)
      ensures groupId in old(groups) ==>
        var g := old(groups)[groupId];
        groups == old(groups)[groupId := g.(
          name := if "name" in baseGroup && baseGroup["name"].Some? then baseGroup["name"] else g.name,
          description := if "description" in baseGroup && baseGroup["description"].Some?
                         then baseGroup["description"] else g.description)] &&
        r == Some(groups[groupId])
      ensures groupId !in old(groups) ==> groups == old(groups)
    {
      var patch := StripUndefined(baseGroup);
      if groupId in groups {
        groups := groups[groupId := SetDoc(groups[groupId], patch)];
        r := Some(groups[groupId]);
      } else {
        r := None;
      }
    }

    method AddUserToGroup(groupId: ObjectId, user: Member) returns (ok: bool)
      requires Valid()
      modifies this
      ensures Valid()
      ensures ok == (groupId in old(groups))
      ensures ok ==> groups == old(groups)[groupId := old(groups)[groupId].(
                users := AddToSet(old(groups)[groupId].users, user),
                joinRequests := Pull(old(groups)[groupId].joinRequests, user.id))]
      ensures ok ==> user in groups[groupId].users && user.id !in groups[groupId].joinRequests
      ensures !ok ==> groups == old(groups)
    {
      ok := groupId in groups;
      if ok {
        groups := groups[groupId := AddUserDoc(groups[groupId], user)];
      }
    }

    method RemoveUserFromGroup(groupId: ObjectId, userId: UserId) returns (ok: bool)
      requires Valid()
      modifies this
      ensures Valid()
      ensures ok == (groupId in old(groups))
      ensures ok ==> groups == old(groups)[groupId := old(groups)[groupId].(
                users := PullById(old(groups)[groupId].users, userId))]
      ensures ok ==> FindMember(groups[groupId].users, userId).None?
      ensures ok ==> forall other :: other != userId ==>
                FindMember(groups[groupId].users, other) == FindMember(old(groups)[groupId].users, other)
      ensures !ok ==> groups == old(groups)
    {
      ok := groupId in groups;
      if ok {
        groups := groups[groupId := groups[groupId].(users := PullById(groups[groupId].users, userId))];
      }
    }

    method AddUserToJoinRequests(groupId: ObjectId, userId: UserId) returns (ok: bool)
      requires Valid()
      modifies this
      ensures Valid()
      ensures ok == (groupId in old(groups))
      ensures ok ==> groups == old(groups)[groupId := old(groups)[groupId].(
                joinRequests := AddToSet(old(groups)[groupId].joinRequests, userId))]
      ensures ok ==> userId in groups[groupId].joinRequests
      ensures !ok ==> groups == old(groups)
    {
      ok := groupId in groups;
      if ok {
        groups := groups[groupId := groups[groupId].(joinRequests := AddToSet(groups[groupId].joinRequests, userId))];
      }
    }

    method RemoveUserFromJoinRequests(groupId: ObjectId, userId: UserId) returns (ok: bool)
      requires Valid()
      modifies this
      ensures Valid()
      ensures ok == (groupId in old(groups))
      ensures ok ==> groups == old(groups)[groupId := old(groups)[groupId].(
                joinRequests := Pull(old(groups)[groupId].joinRequests, userId))]
      ensures ok ==> userId !in groups[groupId].joinRequests
      ensures !ok ==> groups == old(groups)
    {
      ok := groupId in groups;
      if ok {
        groups := groups[groupId := groups[groupId].(joinRequests := Pull(groups[groupId].joinRequests, userId))];
      }
    }
  }
}
