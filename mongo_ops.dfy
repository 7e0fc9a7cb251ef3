/** The document-store update operators the data-access layer builds its
    updates from, on one array field: `$addToSet`, `$pull` of a value and
    `$pull` of the embedded documents with a given `_id`; and the removal
    of `undefined` properties from a `$set` argument. */
module MongoOps {
  import opened Wrappers
  import opened Users

  /** `$addToSet`: append the element unless an equal one is present. */
  function AddToSet<T(==,!new)>(s: seq<T>, x: T): (r: seq<T>)
    ensures x in r
    ensures x in s ==> r == s
    ensures x !in s ==> r == s + [x]
    ensures forall y :: y in r <==> y in s || y == x
  {
    if x in s then s else s + [x]
  }

  /** `$pull` of a value: remove every element equal to it, keeping the rest in order. */
  function Pull<T(==,!new)>(s: seq<T>, x: T): (r: seq<T>)
    ensures multiset(r) == multiset(s)[x := 0]
    ensures forall y :: y in r <==> y in s && y != x
    ensures x !in s ==> r == s
    decreases |s|
  {
    if |s| == 0 then []
    else
      assert s == [s[0]] + s[1..];
      if s[0] == x then Pull(s[1..], x) else [s[0]] + Pull(s[1..], x)
  }

  /** `$pull: { users: { _id: id } }`: remove every entry with that `_id`,
      whatever its other fields, keeping the rest in order, so that `find`
      answers as before for every other `_id`. */
  function PullById(users: seq<Member>, id: UserId): (r: seq<Member>)
    ensures forall m :: m in r <==> m in users && m.id != id
    ensures forall m :: multiset(r)[m] == if m.id == id then 0 else multiset(users)[m]
    ensures FindMember(r, id).None?
    ensures forall other :: other != id ==> FindMember(r, other) == FindMember(users, other)
    decreases |users|
  {
    if |users| == 0 then []
    else
      assert users == [users[0]] + users[1..];
      if users[0].id == id then PullById(users[1..], id) else [users[0]] + PullById(users[1..], id)
  }

  /** `$pull` distributes over concatenation: order is kept across the whole array. */
  lemma {:induction false} PullAppend<T(!new)>(a: seq<T>, b: seq<T>, x: T)
    ensures Pull(a + b, x) == Pull(a, x) + Pull(b, x)
    decreases |a|
  {
    if |a| > 0 {
      assert (a + b)[1..] == a[1..] + b;
      PullAppend(a[1..], b, x);
    } else {
      assert a + b == b;
    }
  }

  /** Adding to a set, then pulling the same value, restores an array that
      did not hold it. */
  lemma AddThenPullRestores<T(!new)>(s: seq<T>, x: T)
    requires x !in s
    ensures Pull(AddToSet(s, x), x) == s
  {
    PullAppend(s, [x], x);
    assert Pull([x], x) == Pull([x][1..], x);
  }

  /** A second `$addToSet` of the same value changes nothing. */
  lemma AddToSetIdempotent<T(!new)>(s: seq<T>, x: T)
    ensures AddToSet(AddToSet(s, x), x) == AddToSet(s, x)
  {
  }

  /** A second `$pull` of the same value changes nothing. */
  lemma PullIdempotent<T(!new)>(s: seq<T>, x: T)
    ensures Pull(Pull(s, x), x) == Pull(s, x)
  {
  }

  /** `Object.keys(o).forEach(key => o[key] === undefined && delete o[key])`:
      the properties left hold their original, defined values. A `None`
      value is a property holding `undefined`. */
  method StripUndefined(patch: map<string, Option<string>>) returns (r: map<string, string>)
    ensures forall k :: k in r <==> k in patch && patch[k].Some?
    ensures forall k :: k in r ==> patch[k] == Some(r[k])
  {
    r := map[];
    var keys := patch.Keys;
    while keys != {}
      invariant keys <= patch.Keys
      invariant forall k :: k in r <==> k in patch && k !in keys && patch[k].Some?
      invariant forall k :: k in r ==> patch[k] == Some(r[k])
      decreases keys
    {
      var k :| k in keys;
      if patch[k].Some? {
        r := r[k := patch[k].value];
      }
      keys := keys - {k};
    }
  }
}
