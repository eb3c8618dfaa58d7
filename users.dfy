/** The User record (models/user.kt): a plain value for everything that
    only reads it, and a mutable object for the follower/following helpers
    that update its maps in place. */
module Users {
  import opened Common

  /** One user as stored under users/<uid>. The followers and following
      maps go from a push key (a timestamp string) to a user id. */
  datatype User = User(
    userId: string,
    fullName: string,
    email: string,
    fullNameLower: string,
    followersCount: Long,
    followingCount: Long,
    postsCount: Long,
    likesReceived: Long,
    profileViews: Long,
    popularityScore: real,
    lastActive: Long,
    followers: map<string, string>,
    following: map<string, string>)

  /** The keys of m that map to v. */
  function KeysWithValue(m: map<string, string>, v: string): (ks: set<string>)
    ensures forall k :: k in ks <==> k in m && m[k] == v
  {
    set k | k in m && m[k] == v
  }

  /** How many times v occurs among the values of m. */
  function ValueCount(m: map<string, string>, v: string): nat {
    |KeysWithValue(m, v)|
  }

  lemma ValueCountZeroIff(m: map<string, string>, v: string)
    ensures ValueCount(m, v) == 0 <==> v !in m.Values
  {
    if v in m.Values {
      var k :| k in m && m[k] == v;
      assert k in KeysWithValue(m, v);
    } else {
      assert KeysWithValue(m, v) == {};
    }
  }

  /** Removing one key takes one occurrence of its value out of the count
      and leaves every other value's count alone. */
  lemma ValueCountRemoveKey(m: map<string, string>, k: string, v: string)
    requires k in m
    ensures ValueCount(m - {k}, v) == ValueCount(m, v) - (if m[k] == v then 1 else 0)
  {
    assert KeysWithValue(m - {k}, v) == KeysWithValue(m, v) - {k};
  }

  /** What `entries.removeAll { it.value == v }` leaves behind. */
  function WithoutValue(m: map<string, string>, v: string): (r: map<string, string>)
    ensures forall k :: k in r <==> k in m && m[k] != v
    ensures forall k | k in r :: r[k] == m[k]
    ensures v !in r.Values
  {
    map k | k in m && m[k] != v :: m[k]
  }

  /** After removing v, v is not counted at all and every other value keeps
      its count. */
  lemma WithoutValueCounts(m: map<string, string>, v: string, w: string)
    ensures ValueCount(WithoutValue(m, v), v) == 0
    ensures w != v ==> ValueCount(WithoutValue(m, v), w) == ValueCount(m, w)
  {
    ValueCountZeroIff(WithoutValue(m, v), v);
    if w != v {
      assert KeysWithValue(WithoutValue(m, v), w) == KeysWithValue(m, w);
    }
  }

  /** `values.toList()`: every value of m once per key holding it. The order
      is the hash map's iteration order, which is not modelled. */
  method ValuesList(m: map<string, string>) returns (list: seq<string>)
    ensures |list| == |m|
    ensures forall v :: multiset(list)[v] == ValueCount(m, v)
  {
    list := [];
    var rest := m;
    while rest != map[]
      invariant forall k | k in rest :: k in m && rest[k] == m[k]
      invariant |list| + |rest| == |m|
      invariant forall v :: multiset(list)[v] + ValueCount(rest, v) == ValueCount(m, v)
      decreases |rest|
    {
      var k :| k in rest;
      forall v ensures multiset(list + [rest[k]])[v] + ValueCount(rest - {k}, v) == ValueCount(m, v) {
        ValueCountRemoveKey(rest, k, v);
      }
      assert |rest - {k}| == |rest| - 1 by {
        assert (rest - {k}).Keys == rest.Keys - {k};
      }
      list := list + [rest[k]];
      rest := rest - {k};
    }
    forall v ensures ValueCount(rest, v) == 0 {
      ValueCountZeroIff(rest, v);
    }
  }

  /** Two different times never give the same timestamp key, so only adds
      in the same millisecond can overwrite each other. */
  lemma DistinctTimestampKeys(t1: Long, t2: Long)
    requires t1 != t2
    ensures IntToString(t1) != IntToString(t2)
  {
    if IntToString(t1) == IntToString(t2) {
      IntToStringInjective(t1, t2);
    }
  }

  /** The mutable record: a User whose maps the helper methods update in
      place. `now` stands for System.currentTimeMillis(). */
  class UserObject {
    var userId: string
    var fullName: string
    var email: string
    var fullNameLower: string
    var followersCount: Long
    var followingCount: Long
    var postsCount: Long
    var likesReceived: Long
    var profileViews: Long
    var popularityScore: real
    var lastActive: Long
    var followers: map<string, string>
    var following: map<string, string>

    function Value(): User
      reads this
    {
      User(userId, fullName, email, fullNameLower, followersCount, followingCount,
           postsCount, likesReceived, profileViews, popularityScore, lastActive,
           followers, following)
    }

    /** The no-argument constructor Firebase uses before filling fields in. */
    constructor ()
      ensures Value() == User("", "", "", "", 0, 0, 0, 0, 0, 0.0, 0, map[], map[])
    {
      userId, fullName, email, fullNameLower := "", "", "", "";
      followersCount, followingCount, postsCount, likesReceived, profileViews := 0, 0, 0, 0, 0;
      popularityScore, lastActive := 0.0, 0;
      followers, following := map[], map[];
    }

    method GetFollowersList() returns (list: seq<string>)
      ensures |list| == |followers|
      ensures forall v :: multiset(list)[v] == ValueCount(followers, v)
    {
      list := ValuesList(followers);
    }

    method GetFollowingList() returns (list: seq<string>)
      ensures |list| == |following|
      ensures forall v :: multiset(list)[v] == ValueCount(following, v)
    {
      list := ValuesList(following);
    }

    /** Stores followerId under the key for time `now`; an entry already at
        that key is overwritten, every other entry is kept. */
    method AddFollower(followerId: string, now: Long)
      modifies this
      ensures followers == old(followers)[IntToString(now) := followerId]
      ensures Value() == old(Value()).(followers := followers)
    {
      var key := IntToString(now);
      followers := followers[key := followerId];
    }

    /** Removes every entry whose value is followerId, keeps all others. */
    method RemoveFollower(followerId: string)
      modifies this
      ensures followers == WithoutValue(old(followers), followerId)
      ensures Value() == old(Value()).(followers := followers)
    {
      followers := WithoutValue(followers, followerId);
    }

    method AddFollowing(followingId: string, now: Long)
      modifies this
      ensures following == old(following)[IntToString(now) := followingId]
      ensures Value() == old(Value()).(following := following)
    {
      var key := IntToString(now);
      following := following[key := followingId];
    }

    method RemoveFollowing(followingId: string)
      modifies this
      ensures following == WithoutValue(old(following), followingId)
      ensures Value() == old(Value()).(following := following)
    {
      following := WithoutValue(following, followingId);
    }
  }

  /** After removeFollower(id), any list getFollowersList() can return
      lacks id and lists every other value as often as before. */
  lemma RemovedValueNotListed(before: map<string, string>, id: string, list: seq<string>)
    requires forall v :: multiset(list)[v] == ValueCount(WithoutValue(before, id), v)
    ensures id !in list
    ensures forall w | w != id :: multiset(list)[w] == ValueCount(before, w)
  {
    WithoutValueCounts(before, id, id);
    forall w | w != id ensures multiset(list)[w] == ValueCount(before, w) {
      WithoutValueCounts(before, id, w);
    }
  }
}
