# Missions and groups: access gate and membership store, in Dafny

This project models the core of a server that manages shared *missions* and
*groups*. Users join them, leave them and hold graded access levels in them.
The model covers four things:

- **The request gates.** The token check sets the current user. The
  per-resource check passes a request only if the mission or group exists,
  the current user has an entry in its `users`, and that entry's level is at
  least the required one. The older copy of the gates in the logger package
  is modelled too.
- **The membership stores.** Each collection is a class holding a map from
  id to document. Every data-access operation is one in-place update built
  from the store's operators: `$addToSet`, `$pull` and `$set`. Mission
  updates also stamp the update time and the UPDATED state; group updates
  do not.
- **The group business logic.** Its membership methods are thin
  compositions over the group store. Its create and update methods always
  fail.
- **The request-body validator and the error taxonomy.** The validator
  projects the body onto the listed keys and reports the first missing or
  invalid argument. Each error kind has a name, a status code and a message
  template.

Modules, one per file:

- `Wrappers`: Option and Result.
- `JsValues`: JavaScript values, `typeof`, and the `${…}` string form.
- `Errors`: the error taxonomy.
- `Users`: users, `users` entries, and `find` by `_id`.
- `MongoOps`: the update operators and the removal of undefined properties.
- `Missions`, `Groups`: the stores.
- `GroupsLogic`: the group business logic.
- `Auth`, `LegacyAuth`: the two revisions of the gates.
- `Validation`: the validator.
- `AccessProperties`: lemmas that connect the stores' updates to the gates.

Assumptions, where the code the core relies on is not part of this model:

- Access levels (`Permission`, `Role`) are naturals compared numerically,
  as TypeScript enum values are. `Role.MEMBER` is taken to be 0, the enum's
  first value.
- The mission `State` enum is taken to have `CREATED` and `UPDATED`.
- The boolean that `isUpdateOk` computes is taken to mean "a document with
  that id was matched" (`Missions.IsUpdateOk`). The base data-access
  revision that defines it is not part of this model.
- A store lookup that finds nothing yields `null`. The group-not-found
  message interpolates that value, not the group id, so it reads
  `group with id: null` (`Auth.AbsentGroupMessageIgnoresId`).
- The current gates (`src/application/middlewares/auth.ts:11`) import
  `ForbiddenError`, `MissingTokenError`, `InvalidTokenError` and
  `NotFoundError` from `src/models/error.ts`, which is not part of this
  model. Only their constructor arguments are modelled (`Auth.AuthError`);
  so `Auth.NotFoundError` is that file's class, not `Errors.NotFound`.
- The older gates (`src/logger/auth.ts:10`) import the same four names
  from `src/logger/error.ts`, which defines only `NotFoundError` of them.
  The model gives both revisions the same `Auth.AuthError` constructors.

Facts about the code that a reader might not expect:

- `$addToSet` compares whole entries. A user who already has an entry with
  another level therefore gets a second entry, and the gate keeps reading
  the first one (`AccessProperties.AddedUserGate`).
- `getMissionsByIds` runs the `$in` query even for an empty list of ids.
- A current member can also file a join request; nothing checks membership
  first (`GroupsLogic.MemberCanAlsoRequestToJoin`).
- The core has no operation that changes an existing member's level, and
  no operation that seeds a new mission or group with its creator.

## Model

| member | source | states |
|---|---|---|
| `JsValues.TypeOf` | src/utils/validation.ts:33 | `typeof`: "object" exactly for null, arrays and objects; "undefined", "string", "number" and "boolean" exactly for their kinds |
| `JsValues.ToJsString` | src/utils/validation.ts:31 | `${value}`: a string is itself; a number's decimal form reads back as the number, with a leading "-" exactly when negative; booleans give "true"/"false"; null and undefined give their names |
| `JsValues.NatToStringRoundTrip` | src/utils/validation.ts:31 | reading back a natural number's decimal digits gives the number |
| `JsValues.IntToStringRoundTrip` | src/utils/validation.ts:31 | reading back an integer's string form gives the integer, so distinct numbers have distinct string forms |
| `Errors.Name` | src/logger/error.ts:12-47 | each subclass's `name` ends in "Error"; "NotFoundError" and "UnknownError" name exactly their kinds |
| `Errors.StatusCode` | src/logger/error.ts:13-48 | every status is in 400..599; 500 and above exactly for UnknownError and ActionFailedError; 401 exactly for NotFoundError |
| `Errors.Message` | src/logger/error.ts:15-50 | each template starts with its fixed text and then quotes the resource, argument or action; an UnknownError's message is the given text |
| `Errors.New` | src/logger/error.ts:11-50 | a newly constructed error has the given kind and its own construction stack |
| `Errors.SetStack` | src/logger/error.ts:5-8 | `setStack` replaces the stack and keeps the kind |
| `Errors.FromError` | src/logger/error.ts:35-43 | the result is an UnknownError (status 500). An Error keeps its message and stack. A string becomes the message. Anything else gets "An unknown error occured" |
| `Errors.KindsDistinguishable` | src/logger/error.ts:11-50 | two kinds have the same name iff they have the same status code, iff they are the same subclass (401, 450, 451, 500, 550) |
| `Errors.WrappedInjective` | src/logger/error.ts:15 | a text between a fixed prefix and suffix can be recovered |
| `Errors.MessageNamesItsSubject` | src/logger/error.ts:15-21 | equal NotFound, MissingArgument or ActionFailed messages name the same resource, argument or action |
| `Errors.InvalidArgumentMessageShape` | src/logger/error.ts:28 | the InvalidArgument message starts with the quoted name and then holds the value's string form |
| `Users.FindMember` | src/application/middlewares/auth.ts:51 | `find` by `_id`: none iff no entry has the id; otherwise the entry at the first index with that id |
| `Users.FindMemberFirst` | src/application/middlewares/auth.ts:51 | the entry at the first matching index is what `find` returns |
| `Users.FindMemberIsFirstEntry` | src/application/middlewares/auth.ts:51 | the same, for all indices at once |
| `Users.FindMemberAppend` | src/dal/missions.ts:75 | appending entries does not change what `find` returns for an id that already has an entry |
| `MongoOps.AddToSet` | src/dal/missions.ts:65 | `$addToSet`: the element is present afterwards; the array is unchanged if it was present, and appended to otherwise |
| `MongoOps.Pull` | src/dal/missions.ts:70 | `$pull`: every occurrence is removed and every other element keeps its multiplicity; nothing changes if the value was absent |
| `MongoOps.PullById` | src/dal/missions.ts:80 | `$pull` by `_id`: exactly the entries with other ids remain, with their multiplicities; no entry with the id is left; `find` answers as before for every other `_id` |
| `MongoOps.PullAppend` | src/dal/missions.ts:70 | `$pull` distributes over concatenation, so the order of the remaining elements is kept |
| `MongoOps.AddThenPullRestores` | src/dal/missions.ts:64-71 | adding a value, then pulling it, restores an array that did not hold it |
| `MongoOps.AddToSetIdempotent` | src/dal/missions.ts:65 | a second `$addToSet` of the same value changes nothing |
| `MongoOps.PullIdempotent` | src/dal/missions.ts:70 | a second `$pull` of the same value changes nothing |
| `MongoOps.StripUndefined` | src/dal/missions.ts:54 | the key-deletion loop keeps exactly the properties with a defined value, unchanged |
| `Missions.ApplyUpdate` | src/dal/missions.ts:84-87 | an update never changes id, creator, creation time or sequence; no operator on an array leaves that array alone |
| `Missions.Stamp` | src/dal/missions.ts:85 | the rebinding keeps the update's array operators and its other `$set` fields |
| `Missions.StampedUpdateMarksUpdated` | src/dal/missions.ts:85 | every update through the private helper sets the update time and the UPDATED state |
| `Missions.SetExportedChangesOnlyFlag` | src/dal/missions.ts:59-61 | exporting changes `isExported`, the update time and the state, and nothing else |
| `Missions.AddToJoinRequestIdempotent` | src/dal/missions.ts:64-66 | the user is in `joinRequests` afterwards; asking again leaves `joinRequests` unchanged; `users` is untouched |
| `Missions.JoinRequestRoundTrip` | src/dal/missions.ts:64-71 | asking to join and then cancelling restores `joinRequests` when the user had not asked before |
| `Missions.RemoveFromJoinRequestRemovesAll` | src/dal/missions.ts:69-71 | every request of the user goes; every other request stays with its multiplicity; `users` is untouched |
| `Missions.AddUserToMissionEffect` | src/dal/missions.ts:74-76 | `{_id, permission}` is in `users` and the user is out of `joinRequests` after one update; earlier entries stay, including one with the same `_id` and another permission |
| `Missions.RemoveUserFromMissionEffect` | src/dal/missions.ts:79-81 | every entry with the `_id` goes, whatever its permission; the other entries stay; `joinRequests` is untouched |
| `Missions.UpdateKeepsAbsentFields` | src/dal/missions.ts:53-56 | fields of the patch are set; fields absent from it keep their stored values; the arrays and the export flag are untouched |
| `Missions.MissionsDAL.constructor` | src/dal/missions.ts:17-20 | a store over the given documents, each stored under its own `_id` |
| `Missions.MissionsDAL.GetAllMissions` | src/dal/missions.ts:22-24 | exactly the stored missions |
| `Missions.MissionsDAL.GetMissionById` | src/dal/missions.ts:26-28 | a mission iff one is stored under the id, and then it is that stored mission |
| `Missions.MissionsDAL.GetMissionsByIds` | src/dal/missions.ts:30-32 | exactly the stored missions whose id is in the list |
| `Missions.MissionsDAL.GetAllMissionsNames` | src/dal/missions.ts:34-37 | exactly the names of stored missions |
| `Missions.MissionsDAL.GetPermissionsOfUser` | src/dal/missions.ts:39-42 | defined iff the mission exists and has an entry with the id; then the permission of the first such entry |
| `Missions.MissionsDAL.GetAllMissionsOfUser` | src/dal/missions.ts:44-46 | exactly the stored missions having an entry with the id |
| `Missions.MissionsDAL.FindOneAndUpdate` | src/dal/missions.ts:86 | only the matched document changes, by the update; the original or the updated document is returned; no match changes nothing and returns none |
| `Missions.MissionsDAL.StampedUpdate` | src/dal/missions.ts:84-87 | the same, with the update's `$set` stamped |
| `Missions.MissionsDAL.UpdateMission` | src/dal/missions.ts:53-57 | defined name and description are set, undefined ones are left, time and state are stamped; the post-update document is returned, or none if no mission matched |
| `Missions.MissionsDAL.SetExportedMission` | src/dal/missions.ts:59-62 | true iff the mission exists; then only `isExported`, the time and the state change; otherwise nothing changes |
| `Missions.MissionsDAL.AddToJoinRequest` | src/dal/missions.ts:64-67 | true iff the mission exists; then `joinRequests` gets `$addToSet` and the stamp; otherwise nothing changes |
| `Missions.MissionsDAL.RemoveFromJoinRequest` | src/dal/missions.ts:69-72 | true iff the mission exists; then `joinRequests` gets `$pull` and the stamp; the user's request is gone |
| `Missions.MissionsDAL.AddUserToMission` | src/dal/missions.ts:74-77 | true iff the mission exists; then the entry is `$addToSet` into `users` and the user is pulled from `joinRequests` in the same update, with the stamp |
| `Missions.MissionsDAL.RemoveUserFromMission` | src/dal/missions.ts:79-82 | true iff the mission exists; then every entry with the id is pulled from `users`, with the stamp; `find` still answers as before for every other user |
| `Groups.RoleEntry` | src/bl/groups.ts:37 | `{...user, role}` has the user's id, name and hierarchy, and the role |
| `Groups.AddUserDoc` | src/dal/groups.ts:46 | the entry is in `users` and its id is out of `joinRequests`; earlier entries stay |
| `Groups.SetDoc` | src/dal/groups.ts:41 | `$set` of a patch writes the patch's `name` and `description`, keeps the fields the patch lacks, and touches no id, creator or array |
| `Groups.JoinRequestsSetSemantics` | src/dal/groups.ts:55-62 | asking to join twice equals asking once; asking and then cancelling restores `joinRequests` for a new requester |
| `Groups.GroupsDAL.constructor` | src/dal/groups.ts:18-21 | a store over the given documents, each stored under its own `_id` |
| `Groups.GroupsDAL.GetGroups` | src/dal/groups.ts:23-25 | exactly the stored groups |
| `Groups.GroupsDAL.GetGroupById` | src/dal/groups.ts:31-33 | the group stored under the id, or none |
| `Groups.GroupsDAL.UpdateGroup` | src/dal/groups.ts:39-43 | defined name and description are set and undefined ones are left, with no stamp; the updated document is returned, or none |
| `Groups.GroupsDAL.AddUserToGroup` | src/dal/groups.ts:45-48 | true iff the group exists; then the entry is `$addToSet` into `users` and its id is pulled from `joinRequests` in one update; nothing else changes |
| `Groups.GroupsDAL.RemoveUserFromGroup` | src/dal/groups.ts:50-53 | true iff the group exists; then every entry with the id is pulled from `users`; nothing else changes; `find` still answers as before for every other user |
| `Groups.GroupsDAL.AddUserToJoinRequests` | src/dal/groups.ts:55-58 | true iff the group exists; then `joinRequests` gets `$addToSet`; nothing else changes |
| `Groups.GroupsDAL.RemoveUserFromJoinRequests` | src/dal/groups.ts:60-63 | true iff the group exists; then every occurrence of the id is pulled from `joinRequests`; nothing else changes |
| `GroupsLogic.GetUserById` | src/bl/groups.ts:12-14 | the placeholder user: the given id, name `somename`, hierarchy `some/hierarchy` |
| `GroupsLogic.MemberEntry` | src/bl/groups.ts:36-37 | the entry `addUser` stores: the placeholder user with the MEMBER role |
| `GroupsLogic.GroupsBL.constructor` | src/bl/groups.ts:18 | the logic works over the injected store |
| `GroupsLogic.GroupsBL.CreateGroup` | src/bl/groups.ts:29-31 | always fails with "Method not implemented." |
| `GroupsLogic.GroupsBL.UpdateGroup` | src/bl/groups.ts:32-34 | always fails with "Method not implemented." |
| `GroupsLogic.GroupsBL.AddUser` | src/bl/groups.ts:35-38 | the MEMBER entry for the user is added and the user's join request is removed in the same update; true iff the group exists |
| `GroupsLogic.GroupsBL.LeaveOrRemoveUser` | src/bl/groups.ts:39-41 | exactly the store's user removal, with the arguments reordered; the user has no entry left, and every other user's entry lookup is unchanged |
| `GroupsLogic.GroupsBL.AskJoinGroup` | src/bl/groups.ts:42-44 | exactly the store's join-request addition, with no membership check |
| `GroupsLogic.GroupsBL.CancelOrRejectJoinRequest` | src/bl/groups.ts:45-47 | exactly the store's join-request removal, with the arguments reordered |
| `GroupsLogic.MemberCanAlsoRequestToJoin` | src/bl/groups.ts:42-44 | a current member who asks to join is both a member and a requester |
| `Auth.IndexOf` | src/application/middlewares/auth.ts:97 | the first position of the separator |
| `Auth.Split` | src/application/middlewares/auth.ts:97 | `split`: at least one piece, no piece holds the separator, a single piece iff the string has no separator |
| `Auth.JoinSplit` | src/application/middlewares/auth.ts:97 | joining the pieces with the separator gives back the string |
| `Auth.IndexOfAfterPrefix` | src/application/middlewares/auth.ts:97 | after a separator-free prefix, the first separator is the one just after it |
| `Auth.SplitAfterPrefix` | src/application/middlewares/auth.ts:97 | splitting yields the piece before the first separator, then the split of the rest |
| `Auth.SplitJoin` | src/application/middlewares/auth.ts:97 | splitting a join of separator-free pieces gives back the pieces |
| `Auth.GetMethodName` | src/application/middlewares/auth.ts:96-98 | element 1 of the split: undefined iff the path has no "/"; never holds a "/" |
| `Auth.MethodNameOfShortRoute` | src/application/middlewares/auth.ts:96-98 | the method name of `/seg` is `seg` |
| `Auth.MethodNameOfLongRoute` | src/application/middlewares/auth.ts:96-98 | the method name of `/seg/rest` is `seg` |
| `Auth.Authenticate` | src/application/middlewares/auth.ts:19-31 | a missing or empty token is MissingToken; a rejected one is InvalidToken with the reason; otherwise the claim that verify returned |
| `Auth.MissingTokenIgnoresVerify` | src/application/middlewares/auth.ts:21-22 | with no token, any two verifiers give the same MissingToken outcome, so verify is not consulted |
| `Auth.ResponseLocals.constructor` | src/application/middlewares/auth.ts:25 | no current user before the token check |
| `Auth.ResponseLocals.Authentication` | src/application/middlewares/auth.ts:19-31 | on success `currentUser` is the claim and no error is passed; on failure the error is passed and `currentUser` is unchanged |
| `Auth.Gate` | src/application/middlewares/auth.ts:48-61 | absent resource gives NotFound (resource); no entry gives NotFound (membership); pass iff the first entry's level is at least the desired one; Forbidden iff lower, with the method name and the actual and desired levels |
| `Auth.AuthPermission` | src/application/middlewares/auth.ts:40-66 | an absent mission, then an absent member, is NotFound with the mission's messages; pass iff the first entry's permission is at least the desired one; Forbidden carries the route's method name, the desired permission and a lower actual one |
| `Auth.AuthRole` | src/application/middlewares/auth.ts:68-94 | the same for groups and roles; an absent group's message is `group with id: null` |
| `Auth.AbsentMissionNotFound` | src/application/middlewares/auth.ts:48-49 | an absent mission is NotFound, naming the mission id, before any membership lookup |
| `Auth.AbsentGroupMessageIgnoresId` | src/application/middlewares/auth.ts:77 | the group-not-found message interpolates the absent group, so it is the same for every group id |
| `Auth.NonMemberNotFound` | src/application/middlewares/auth.ts:51-52 | a user with no entry is NotFound for the membership, never Forbidden |
| `Auth.MemberLevelDecides` | src/application/middlewares/auth.ts:57-61 | with a first entry, an equal or higher permission passes; a lower one is Forbidden with the method name, the actual and the desired permission |
| `Auth.RoleLevelDecides` | src/application/middlewares/auth.ts:76-89 | the same outcomes for groups and roles |
| `LegacyAuth.Authenticate` | src/logger/auth.ts:18-28 | a missing or empty token is MissingToken; success returns the claim that verify returned |
| `LegacyAuth.Authorization` | src/logger/auth.ts:36-58 | an absent mission is NotFound; pass iff the first entry's permission is at least the desired one; Forbidden carries the desired permission, a lower actual one, and a method name exactly when the route has a "/" |
| `LegacyAuth.GAuthorization` | src/logger/auth.ts:60-82 | the same for groups and roles; an absent group's message is `group with id: null` |
| `LegacyAuth.AuthenticateAgrees` | src/logger/auth.ts:18-28 | the older token check decides exactly as the current one, including InvalidToken on a rejected token |
| `LegacyAuth.AuthorizationAgrees` | src/logger/auth.ts:36-58 | `authorization` gives the current mission gate's outcome on every input: NotFound, NotFound, Forbidden with route segment 1, or pass |
| `LegacyAuth.GAuthorizationAgrees` | src/logger/auth.ts:60-82 | `gauthorization` gives the current group gate's outcome on every input, including the non-strict pass |
| `AccessProperties.AddedUserGate` | src/dal/missions.ts:74-76 | a user added with no earlier entry passes every gate up to the added permission; with an earlier entry, the gate's answer is unchanged |
| `AccessProperties.AddedGroupMemberPasses` | src/bl/groups.ts:35-38 | after `addUser`, the user passes the group gate at the MEMBER role |
| `AccessProperties.RemovedUserNotFound` | src/dal/missions.ts:79-81 | after removal from a mission, the gate answers NotFound for the membership |
| `AccessProperties.RemovalKeepsOtherMissionGates` | src/dal/missions.ts:79-81 | removing one user from a mission leaves every other user's answer at the mission gate unchanged |
| `AccessProperties.RemovalKeepsOtherGroupGates` | src/dal/groups.ts:50-52 | removing one user from a group leaves every other user's answer at the group gate unchanged |
| `AccessProperties.ScenarioJoinThenGrant` | src/dal/missions.ts:64-77 | for a mission whose only member is its creator, a join request and its grant leave the two entries and no requests |
| `AccessProperties.ScenarioGates` | src/application/middlewares/auth.ts:48-61 | in that mission the creator passes at the top level, the new member is Forbidden above its level, and a stranger is NotFound |
| `Validation.Resolve` | src/utils/validation.ts:21-25 | the type defaults to `'string'` and `required` to false; given values override |
| `Validation.Names` | src/utils/validation.ts:17 | each argument's name, in list order |
| `Validation.CheckArg` | src/utils/validation.ts:27-34 | nullish and required (or all required) gives MissingArgument; a nullish optional value passes; an enum argument fails iff the value's string form is not a key; a primitive one fails iff `typeof` differs |
| `Validation.FirstFailure` | src/utils/validation.ts:20-37 | none iff every argument passes; otherwise the error of the first failing argument |
| `Validation.FailureIgnoresLaterArgs` | src/utils/validation.ts:20-35 | once an argument fails, later arguments do not affect the report |
| `Validation.ProjectBody` | src/utils/validation.ts:16-18 | the new body has exactly the listed keys, each holding its original value (undefined if missing) |
| `Validation.CheckArgs` | src/utils/validation.ts:20-37 | the loop returns the first failure, or none |
| `Validation.Request.constructor` | src/utils/validation.ts:12 | a request with the given body |
| `Validation.Validate` | src/utils/validation.ts:14-39 | the body becomes the projection; the error passed to `next` is the first failure on it, or none |
| `Validation.ProjectionPreservesChecks` | src/utils/validation.ts:16-27 | checking the projected body gives the same report as checking the original one |
| `Validation.FirstFailureDependsOnNamedValues` | src/utils/validation.ts:27 | the report depends only on the values under the listed names |
| `Validation.AllPassingReportsNothing` | src/utils/validation.ts:29-37 | right-typed values, nullish optional values and enum keys all pass, and then no error is passed |
| `Validation.EnumAcceptsNumericKey` | src/utils/validation.ts:31-32 | a number whose decimal form is an enum key passes, though the middle conjunct is always true |

## Left out

- JWT verification and its keys: `verify` is a parameter that returns a claim or a rejection reason.
- `setDALs` and `dals` are wiring into `response.locals`. The gates take the document the lookup found, or none.
- The RxJS and Express plumbing (`pipe`, `take`, `subscribe`, `next`) is not modelled. Results are synchronous values.
- `new ObjectId(id)` throws on a malformed id. The model takes ids as strings that always parse.
- The names that `Permission[...]` and `Role[...]` give are not modelled: `Auth.ForbiddenError` carries the level values. The enums are not part of this model.
- `getGroupsOfUser` is left out. Its `$elemMatch` on a bare string has unclear semantics.
- The GroupsBL getters (`getGroups`, `getGroupsOfUser`, `getGroupById`) only forward to the store.
- `createMission` and `createGroup` only insert what they are given. Stores are built from an initial map instead.
- `src/bl/missions.ts` is not part of this model. It forwards to methods the shown missions store does not have.
- Users and tree-node queries, logging, server startup, routing and dependency injection are not part of this model.
- Concurrent requests are not modelled. The store is one sequential map.
- Real `Date` values are not modelled. Timestamps are an abstract integer the caller passes.
- Missions.MissionsDAL.GetAllMissions: returns a set, so the store's document order is not modelled.
- Missions.MissionsDAL.GetMissionsByIds: returns a set, so the store's document order is not modelled.
- Missions.MissionsDAL.GetAllMissionsOfUser: returns a set, so the store's document order is not modelled.
- Missions.MissionsDAL.GetAllMissionsNames: returns a set, so document order and repeated names are not modelled.
- Groups.GroupsDAL.GetGroups: returns a set, so the store's document order is not modelled.
- `$addToSet` compares entries by value. The store compares embedded documents field by field, in field order.
- `updateGroup` with every key undefined sends `{ $set: {} }`. Document-store servers before version 5.0 reject such an update; `Groups.GroupsDAL.UpdateGroup` returns the unchanged document, as newer servers do.
- `updateMission` and `updateGroup` model only the `name` and `description` keys of the patch. Deleting undefined keys from the caller's own object is not modelled; the stripped patch is a new value.
- JSON numbers are integers of magnitude at most 2^53 (`JsValues.ExactInt`). Only there is `${n}` exactly the decimal digits. Fractional numbers, larger integers (shortest round-trip digits, and the exponent form such as `1e+21` from 10^21 on) and their string forms are not modelled. Objects are opaque.
- JsValues.ToJsString: covers only numbers that are `ExactInt`s, so an enum key such as "1e+21" for a larger number is not modelled.
- A validator argument with an explicit `type: undefined` is treated like one with no `type`.
- A request body that is not an object is not modelled.
- The base error class's own `name` and `statusCode` getters (which call themselves) are not modelled. Only the subclasses are.
