/** The missions collection: the stored mission record, the update query the
    data-access layer sends for each operation, and the collection itself as
    a class whose methods update one stored document in place. */
module Missions {
  import opened Wrappers
  import opened Users
  import opened MongoOps

  type ObjectId = string

  /** An abstract point in time: the `Date` an update stamps. */
  type Timestamp = int

  /** The workflow state of a mission (the enum's other members, if any, are
      not used by the data-access layer). */
  datatype State = CREATED | UPDATED

  datatype Mission = Mission(
    id: ObjectId,
    name: string,
    description: string,
    users: seq<Member>,
    creator: User,
    createdTime: Timestamp,
    updatedTime: Timestamp,
    joinRequests: seq<UserId>,
    state: State,
    sequence: int,
    isExported: bool)

  /** The `$set` part of an update: `None` leaves the field alone. */
  datatype MissionSet = MissionSet(
    name: Option<string>,
    description: Option<string>,
    isExported: Option<bool>,
    updatedTime: Option<Timestamp>,
    state: Option<State>)

  const NO_SET := MissionSet(None, None, None, None, None)

  /** The operator applied to `users`; at most one per update. */
  datatype UsersOp = NoUsersOp | AddUser(entry: Member) | PullUser(userId: UserId)

  /** The operator applied to `joinRequests`; at most one per update. */
  datatype JoinOp = NoJoinOp | AddJoinRequest(requester: UserId) | PullJoinRequest(requester: UserId)

  datatype MissionUpdate = MissionUpdate(fields: MissionSet, users: UsersOp, joinRequests: JoinOp)

  function ApplyUsersOp(users: seq<Member>, op: UsersOp): seq<Member> {
    match op
    case NoUsersOp => users
    case AddUser(e) => AddToSet(users, e)
    case PullUser(id) => PullById(users, id)
  }

  function ApplyJoinOp(requests: seq<UserId>, op: JoinOp): seq<UserId> {
    match op
    case NoJoinOp => requests
    case AddJoinRequest(id) => AddToSet(requests, id)
    case PullJoinRequest(id) => Pull(requests, id)
  }

  /** The stored document after the store applies an update to it. */
  function ApplyUpdate(m: Mission, u: MissionUpdate): (r: Mission)
    ensures r.id == m.id && r.creator == m.creator
    ensures r.createdTime == m.createdTime && r.sequence == m.sequence
    ensures u.users.NoUsersOp? ==> r.users == m.users
    ensures u.joinRequests.NoJoinOp? ==> r.joinRequests == m.joinRequests
  {
    m.(name := u.fields.name.GetOr(m.name),
       description := u.fields.description.GetOr(m.description),
       isExported := u.fields.isExported.GetOr(m.isExported),
       updatedTime := u.fields.updatedTime.GetOr(m.updatedTime),
       state := u.fields.state.GetOr(m.state),
       users := ApplyUsersOp(m.users, u.users),
       joinRequests := ApplyJoinOp(m.joinRequests, u.joinRequests))
  }

  /** The rebinding in the private update helper: its `$set` gains the update
      time and the UPDATED state, overriding any the update already set. */
  function Stamp(u: MissionUpdate, now: Timestamp): (r: MissionUpdate)
    ensures r.users == u.users && r.joinRequests == u.joinRequests
    ensures r.fields.name == u.fields.name && r.fields.description == u.fields.description
    ensures r.fields.isExported == u.fields.isExported
  {
    u.(fields := u.fields.(updatedTime := Some(now), state := Some(UPDATED)))
  }

  function PatchValue(patch: map<string, string>, key: string): Option<string> {
    if key in patch then Some(patch[key]) else None
  }

  /** `{ $set: baseMission }` for a patch whose undefined properties are gone. */
  function UpdateQuery(patch: map<string, string>): MissionUpdate {
    MissionUpdate(NO_SET.(name := PatchValue(patch, "name"), description := PatchValue(patch, "description")),
                  NoUsersOp, NoJoinOp)
  }

  function SetExportedQuery(isExported: bool): MissionUpdate {
    MissionUpdate(NO_SET.(isExported := Some(isExported)), NoUsersOp, NoJoinOp)
  }

  function AddToJoinRequestQuery(userId: UserId): MissionUpdate {
    MissionUpdate(NO_SET, NoUsersOp, AddJoinRequest(userId))
  }

  function RemoveFromJoinRequestQuery(userId: UserId): MissionUpdate {
    MissionUpdate(NO_SET, NoUsersOp, PullJoinRequest(userId))
  }

  /** The entry `{ _id: userId, permission }`: no name or hierarchy. */
  function PermissionEntry(userId: UserId, permission: Level): Member {
    Member(userId, None, None, permission)
  }

  function AddUserToMissionQuery(userId: UserId, permission: Level): MissionUpdate {
    MissionUpdate(NO_SET, AddUser(PermissionEntry(userId, permission)), PullJoinRequest(userId))
  }

  function RemoveUserFromMissionQuery(userId: UserId): MissionUpdate {
    MissionUpdate(NO_SET, PullUser(userId), NoJoinOp)
  }

  /** The boolean the membership operations return: the update matched a
      document (the helper that computes it is not part of this model). */
  predicate IsUpdateOk(value: Option<Mission>) {
    value.Some?
  }

  /** Every update sent through the private helper stamps the time and the
      UPDATED state, whatever else it does. */
  lemma StampedUpdateMarksUpdated(m: Mission, u: MissionUpdate, now: Timestamp)
    ensures ApplyUpdate(m, Stamp(u, now)).updatedTime == now
    ensures ApplyUpdate(m, Stamp(u, now)).state == UPDATED
  {
  }

  /** Exporting changes `isExported` and, through the stamp, the time and
      state; nothing else. */
  lemma SetExportedChangesOnlyFlag(m: Mission, isExported: bool, now: Timestamp)
    ensures ApplyUpdate(m, Stamp(SetExportedQuery(isExported), now)) ==
            m.(isExported := isExported, updatedTime := now, state := UPDATED)
  {
  }

  /** A join request is present afterwards, and asking twice is the same as
      asking once. */
  lemma AddToJoinRequestIdempotent(m: Mission, userId: UserId, t1: Timestamp, t2: Timestamp)
    ensures var m1 := ApplyUpdate(m, Stamp(AddToJoinRequestQuery(userId), t1));
            var m2 := ApplyUpdate(m1, Stamp(AddToJoinRequestQuery(userId), t2));
            userId in m1.joinRequests && m2.joinRequests == m1.joinRequests && m2.users == m.users
  {
  }

  /** Asking to join and then cancelling restores `joinRequests` when the
      user had not asked before. */
  lemma JoinRequestRoundTrip(m: Mission, userId: UserId, t1: Timestamp, t2: Timestamp)
    requires userId !in m.joinRequests
    ensures var m1 := ApplyUpdate(m, Stamp(AddToJoinRequestQuery(userId), t1));
            var m2 := ApplyUpdate(m1, Stamp(RemoveFromJoinRequestQuery(userId), t2));
            m2.joinRequests == m.joinRequests && m2.users == m.users
  {
    AddThenPullRestores(m.joinRequests, userId);
  }

  /** Removing a join request removes every occurrence of that user and keeps
      every other request, with its multiplicity. */
  lemma RemoveFromJoinRequestRemovesAll(m: Mission, userId: UserId, now: Timestamp)
    ensures var r := ApplyUpdate(m, Stamp(RemoveFromJoinRequestQuery(userId), now));
            userId !in r.joinRequests &&
            multiset(r.joinRequests) == multiset(m.joinRequests)[userId := 0] &&
            r.users == m.users
  {
  }

  /** Adding a user in one update: the entry is in `users`, the user's join
      request is gone, and every earlier entry is kept, including one with
      the same `_id` and a different permission. */
  lemma AddUserToMissionEffect(m: Mission, userId: UserId, permission: Level, now: Timestamp)
    ensures var r := ApplyUpdate(m, Stamp(AddUserToMissionQuery(userId, permission), now));
            PermissionEntry(userId, permission) in r.users &&
            userId !in r.joinRequests &&
            (forall e :: e in m.users ==> e in r.users) &&
            |r.users| <= |m.users| + 1
  {
  }

  /** Removing a user drops every entry with that `_id`, whatever its
      permission, and leaves `joinRequests` alone. */
  lemma RemoveUserFromMissionEffect(m: Mission, userId: UserId, now: Timestamp)
    ensures var r := ApplyUpdate(m, Stamp(RemoveUserFromMissionQuery(userId), now));
            FindMember(r.users, userId).None? &&
            (forall e :: e in r.users <==> e in m.users && e.id != userId) &&
            r.joinRequests == m.joinRequests
  {
  }

  /** A patch without a field leaves that stored field unchanged. */
  lemma UpdateKeepsAbsentFields(m: Mission, patch: map<string, string>, now: Timestamp)
    ensures var r := ApplyUpdate(m, Stamp(UpdateQuery(patch), now));
            ("name" !in patch ==> r.name == m.name) &&
            ("description" !in patch ==> r.description == m.description) &&
            ("name" in patch ==> r.name == patch["name"]) &&
            ("description" in patch ==> r.description == patch["description"]) &&
            r.users == m.users && r.joinRequests == m.joinRequests && r.isExported == m.isExported
  {
  }

  class MissionsDAL {
    /** The stored documents, by `_id`. */
    var missions: map<ObjectId, Mission>

    ghost predicate Valid()
      reads this
    {
      forall id :: id in missions ==> missions[id].id == id
    }

    constructor (initial: map<ObjectId, Mission>)
      requires forall id :: id in initial ==> initial[id].id == id
      ensures Valid() && missions == initial
    {
      missions := initial;
    }

    /** `find$({})`: every stored mission. */
    function GetAllMissions(): (r: set<Mission>)
      reads this
      ensures forall m :: m in r <==> exists id :: id in missions && missions[id] == m
    {
      missions.Values
    }

    /** `findOne$({ _id: id })`. */
    function GetMissionById(id: ObjectId): (r: Option<Mission>)
      reads this
      requires Valid()
      ensures r.Some? <==> id in missions
      ensures r.Some? ==> r.value.id == id && r.value in GetAllMissions()
    {
      if id in missions then Some(missions[id]) else None
    }

    /** `find$({ _id: { $in: ids } })`. */
    function GetMissionsByIds(ids: seq<ObjectId>): (r: set<Mission>)
      reads this
      requires Valid()
      ensures forall m :: m in r <==> m in missions.Values && m.id in ids
    {
      set id | id in ids && id in missions :: missions[id]
    }

    /** The names of all stored missions. */
    function GetAllMissionsNames(): (r: set<string>)
      reads this
      ensures forall n :: n in r <==> exists m :: m in missions.Values && m.name == n
    {
      set m | m in missions.Values :: m.name
    }

    /** `mission.users.find(user => user._id === userId).permission`; `None`
        where the source throws a TypeError (no such mission, or no entry). */
    function GetPermissionsOfUser(userId: UserId, missionId: ObjectId): (r: Option<Level>)
      reads this
      ensures r.Some? <==> missionId in missions &&
                           exists i :: 0 <= i < |missions[missionId].users| && missions[missionId].users[i].id == userId
      ensures r.Some? ==> exists i :: 0 <= i < |missions[missionId].users| &&
                                      missions[missionId].users[i] == Member(userId, missions[missionId].users[i].name,
                                                                             missions[missionId].users[i].hierarchy, r.value) &&
                                      forall j :: 0 <= j < i ==> missions[missionId].users[j].id != userId
    {
      if missionId !in missions then None
      else match FindMember(missions[missionId].users, userId)
        case None => None
        case Some(e) => Some(e.level)
    }

    /** `find$({ users: { $all: [{ $elemMatch: { _id: userId } }] } })`. */
    function GetAllMissionsOfUser(userId: UserId): (r: set<Mission>)
      reads this
      ensures forall m :: m in r <==> m in missions.Values && exists e :: e in m.users && e.id == userId
    {
      set m | m in missions.Values && FindMember(m.users, userId).Some?
    }

    /** The store's find-one-and-update: apply the update to the document with
        that id, if any, and return the original or the updated document. */
    method FindOneAndUpdate(id: ObjectId, update: MissionUpdate, returnOriginal: bool) returns (value: Option<Mission>)
      requires Valid()
      modifies this
      ensures Valid()
      ensures id in old(missions) ==>
                missions == old(missions)[id := ApplyUpdate(old(missions)[id], update)] &&
                value == Some(if returnOriginal then old(missions)[id] else missions[id])
      ensures id !in old(missions) ==> missions == old(missions) && value == None
    {
      if id in missions {
        var original := missions[id];
        missions := missions[id := ApplyUpdate(original, update)];
        value := Some(if returnOriginal then original else missions[id]);
      } else {
        value := None;
      }
    }

    /** The private helper every update goes through: stamp, then update. */
    method StampedUpdate(id: ObjectId, update: MissionUpdate, returnOriginal: bool, now: Timestamp)
      returns (value: Option<Mission>)
      requires Valid()
      modifies this
      ensures Valid()
      ensures id in old(missions) ==>
                missions == old(missions)[id := ApplyUpdate(old(missions)[id], Stamp(update, now))] &&
                value == Some(if returnOriginal then old(missions)[id] else missions[id])
      ensures id !in old(missions) ==> missions == old(missions) && value == None
    {
      value := FindOneAndUpdate(id, Stamp(update, now), returnOriginal);
    }

    /** `updateMission`: drop undefined properties, `$set` the rest, and
        return the document after the update. */
    method UpdateMission(missionId: ObjectId, baseMission: map<string, Option<string>>, now: Timestamp)
      returns (r: Option<Mission>)
      requires Valid()
      modifies this
      ensures Valid()
      ensures r.Some? <==> missionId in old(missions)
      ensures missionId in old(missions) ==>
        var m := old(missions)[missionId];
        missions == old(missions)[missionId := m.(
          name := if "name" in baseMission && baseMission["name"].Some? then baseMission["name"].value else m.name,
          description := if "description" in baseMission && baseMission["description"].Some?
                         then baseMission["description"].value else m.description,
          updatedTime := now, state := UPDATED)] &&
        r == Some(missions[missionId])
      ensures missionId !in old(missions) ==> missions == old(missions)
    {
      var patch := StripUndefined(baseMission);
      r := StampedUpdate(missionId, UpdateQuery(patch), false, now);
    }

    method SetExportedMission(missionId: ObjectId, isExported: bool, now: Timestamp) returns (ok: bool)
      requires Valid()
      modifies this
      ensures Valid()
      ensures ok == (missionId in old(missions))
      ensures ok ==> missions == old(missions)[missionId :=
                old(missions)[missionId].(isExported := isExported, updatedTime := now, state := UPDATED)]
      ensures !ok ==> missions == old(missions)
    {
      var value := StampedUpdate(missionId, SetExportedQuery(isExported), true, now);
      ok := IsUpdateOk(value);
    }

    method AddToJoinRequest(userId: UserId, missionId: ObjectId, now: Timestamp) returns (ok: bool)
      requires Valid()
      modifies this
      ensures Valid()
      ensures ok == (missionId in old(missions))
      ensures ok ==> missions == old(missions)[missionId := old(missions)[missionId].(
                joinRequests := AddToSet(old(missions)[missionId].joinRequests, userId),
                updatedTime := now, state := UPDATED)]
      ensures ok ==> userId in missions[missionId].joinRequests
      ensures !ok ==> missions == old(missions)
    {
      var value := StampedUpdate(missionId, AddToJoinRequestQuery(userId), true, now);
      ok := IsUpdateOk(value);
    }

    method RemoveFromJoinRequest(userId: UserId, missionId: ObjectId, now: Timestamp) returns (ok: bool)
      requires Valid()
      modifies this
      ensures Valid()
      ensures ok == (missionId in old(missions))
      ensures ok ==> missions == old(missions)[missionId := old(missions)[missionId].(
                joinRequests := Pull(old(missions)[missionId].joinRequests, userId),
                updatedTime := now, state := UPDATED)]
      ensures ok ==> userId !in missions[missionId].joinRequests
      ensures !ok ==> missions == old(missions)
    {
      var value := StampedUpdate(missionId, RemoveFromJoinRequestQuery(userId), true, now);
      ok := IsUpdateOk(value);
    }

    method AddUserToMission(userId: UserId, permission: Level, missionId: ObjectId, now: Timestamp) returns (ok: bool)
      requires Valid()
      modifies this
      ensures Valid()
      ensures ok == (missionId in old(missions))
      ensures ok ==> missions == old(missions)[missionId := old(missions)[missionId].(
                users := AddToSet(old(missions)[missionId].users, PermissionEntry(userId, permission)),
                joinRequests := Pull(old(missions)[missionId].joinRequests, userId),
                updatedTime := now, state := UPDATED)]
      ensures ok ==> PermissionEntry(userId, permission) in missions[missionId].users &&
                     userId !in missions[missionId].joinRequests
      ensures !ok ==> missions == old(missions)
    {
      var value := StampedUpdate(missionId, AddUserToMissionQuery(userId, permission), true, now);
      ok := IsUpdateOk(value);
    }

    method RemoveUserFromMission(userId: UserId, missionId: ObjectId, now: Timestamp) returns (ok: bool)
      requires Valid()
      modifies this
      ensures Valid()
      ensures ok == (missionId in old(missions))
      ensures ok ==> missions == old(missions)[missionId := old(missions)[missionId].(
                users := PullById(old(missions)[missionId].users, userId),
                updatedTime := now, state := UPDATED)]
      ensures ok ==> FindMember(missions[missionId].users, userId).None?
      ensures ok ==> forall other :: other != userId ==>
                FindMember(missions[missionId].users, other) == FindMember(old(missions)[missionId].users, other)
      ensures !ok ==> missions == old(missions)
    {
      var value := StampedUpdate(missionId, RemoveUserFromMissionQuery(userId), true, now);
      ok := IsUpdateOk(value);
    }
  }
}
