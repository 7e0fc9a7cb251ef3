/** Users and the membership entries stored in a mission's or a group's
    `users` array. */
module Users {
  import opened Wrappers

  type UserId = string

  /** An access level (a `Permission` on missions, a `Role` on groups);
      levels are compared numerically, as the enum values they are. */
  type Level = nat

  /** The identity claim carried by the token, and what `getUserById` builds. */
  datatype User = User(id: UserId, name: string, hierarchy: string)

  /** One element of `users`: `_id` and the level, plus the name and
      hierarchy when the entry was built from a whole `User`. */
  datatype Member = Member(id: UserId, name: Option<string>, hierarchy: Option<string>, level: Level)

  /** Index `i` holds the first entry of `users` whose `_id` is `id`. */
  ghost predicate IsFirstEntry(users: seq<Member>, id: UserId, i: int) {
    0 <= i < |users| && users[i].id == id && forall j :: 0 <= j < i ==> users[j].id != id
  }

  /** `users.find(user => user._id === id)`: the first entry with that `_id`. */
  function FindMember(users: seq<Member>, id: UserId): (r: Option<Member>)
    ensures r.None? <==> forall i :: 0 <= i < |users| ==> users[i].id != id
    ensures r.Some? ==> exists i :: IsFirstEntry(users, id, i) && users[i] == r.value
    decreases |users|
  {
    if |users| == 0 then None
    else if users[0].id == id then Some(users[0])
    else
      var r := FindMember(users[1..], id);
      assert forall i :: 1 <= i < |users| ==> users[i] == users[1..][i - 1];
      r
  }

  /** The entry `find` returns is the one at the first index with that `_id`. */
  lemma FindMemberFirst(users: seq<Member>, id: UserId, i: int)
    requires IsFirstEntry(users, id, i)
    ensures FindMember(users, id) == Some(users[i])
  {
    var r := FindMember(users, id);
    var k :| IsFirstEntry(users, id, k) && users[k] == r.value;
    assert k == i;
  }

  /** The first entry with an `_id` is unique, so `find` is exactly it. */
  lemma FindMemberIsFirstEntry(users: seq<Member>, id: UserId)
    ensures forall i :: IsFirstEntry(users, id, i) ==> FindMember(users, id) == Some(users[i])
  {
    forall i | IsFirstEntry(users, id, i) ensures FindMember(users, id) == Some(users[i]) {
      FindMemberFirst(users, id, i);
    }
  }

  /** Appending entries does not change what `find` returns for an id that
      already has an entry. */
  lemma FindMemberAppend(users: seq<Member>, extra: seq<Member>, id: UserId)
    requires FindMember(users, id).Some?
    ensures FindMember(users + extra, id) == FindMember(users, id)
  {
    var i :| IsFirstEntry(users, id, i) && users[i] == FindMember(users, id).value;
    assert IsFirstEntry(users + extra, id, i);
    FindMemberFirst(users + extra, id, i);
  }
}
