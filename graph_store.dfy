/**
 * The graph database as the crawler uses it: User and Group nodes merged on
 * their `id`, and Follow and Subscribe relationships merged on their
 * endpoints. `Snapshot` is the store's contents as a value; `GraphStore` is
 * the store itself, updated in place.
 */
module GraphStore {
  import opened VkApi

  /** A `User` node and its four properties. */
  datatype User = User(id: UserId, screenName: string, name: string, city: string)

  /** A `Group` node and its three properties. */
  datatype Group = Group(id: GroupId, screenName: string, name: string)

  /** The end node of a Subscribe relationship: a user or a group. */
  datatype Target = UserNode(userId: UserId) | GroupNode(groupId: GroupId)

  /** A `Subscribe` relationship from a user. */
  datatype Subscribe = Subscribe(from: UserId, to: Target)

  /** The contents of the store: nodes by id, relationships as sets. */
  datatype Snapshot = Snapshot(
    users: map<UserId, User>,
    groups: map<GroupId, Group>,
    follows: set<(UserId, UserId)>,
    subscribes: set<Subscribe>)

  const Empty: Snapshot := Snapshot(map[], map[], {}, {})

  /**
   * Merging a User on `id`: the node is created if no User has that id and
   * its properties are replaced otherwise. Nothing else changes.
   */
  function MergeUser(s: Snapshot, u: User): (r: Snapshot)
    ensures r.users.Keys == s.users.Keys + {u.id}
    ensures r.users[u.id] == u
    ensures forall id :: id in s.users && id != u.id ==> r.users[id] == s.users[id]
    ensures r.groups == s.groups && r.follows == s.follows && r.subscribes == s.subscribes
  {
    s.(users := s.users[u.id := u])
  }

  /** Merging a Group on `id`, in the same way. */
  function MergeGroup(s: Snapshot, g: Group): (r: Snapshot)
    ensures r.groups.Keys == s.groups.Keys + {g.id}
    ensures r.groups[g.id] == g
    ensures forall id :: id in s.groups && id != g.id ==> r.groups[id] == s.groups[id]
    ensures r.users == s.users && r.follows == s.follows && r.subscribes == s.subscribes
  {
    s.(groups := s.groups[g.id := g])
  }

  /** Merging a Follow relationship: it is added unless it is already there. */
  function MergeFollow(s: Snapshot, from: UserId, to: UserId): (r: Snapshot)
    ensures r.follows == s.follows + {(from, to)}
    ensures (from, to) in s.follows ==> r == s
    ensures r.users == s.users && r.groups == s.groups && r.subscribes == s.subscribes
  {
    s.(follows := s.follows + {(from, to)})
  }

  /** Merging a Subscribe relationship, in the same way. */
  function MergeSubscribe(s: Snapshot, from: UserId, to: Target): (r: Snapshot)
    ensures r.subscribes == s.subscribes + {Subscribe(from, to)}
    ensures Subscribe(from, to) in s.subscribes ==> r == s
    ensures r.users == s.users && r.groups == s.groups && r.follows == s.follows
  {
    s.(subscribes := s.subscribes + {Subscribe(from, to)})
  }

  /** A Subscribe target names a node that is in the store. */
  predicate Resolves(s: Snapshot, t: Target) {
    match t
    case UserNode(id) => id in s.users
    case GroupNode(id) => id in s.groups
  }

  /**
   * The store's well-formedness: each node is stored under its own id, and
   * every relationship joins nodes that exist.
   */
  predicate Wf(s: Snapshot) {
    && (forall id :: id in s.users ==> s.users[id].id == id)
    && (forall id :: id in s.groups ==> s.groups[id].id == id)
    && (forall e :: e in s.follows ==> e.0 in s.users && e.1 in s.users)
    && (forall e :: e in s.subscribes ==> e.from in s.users && Resolves(s, e.to))
  }

  /** `t` has every node id and every relationship of `s`: nothing was removed. */
  predicate Within(s: Snapshot, t: Snapshot) {
    && s.users.Keys <= t.users.Keys
    && s.groups.Keys <= t.groups.Keys
    && s.follows <= t.follows
    && s.subscribes <= t.subscribes
  }

  lemma MergeUserKeepsWf(s: Snapshot, u: User)
    requires Wf(s)
    ensures Wf(MergeUser(s, u))
  {
  }

  /** Merging the same User twice leaves the store as one merge does. */
  lemma MergeUserIdempotent(s: Snapshot, u: User)
    ensures MergeUser(MergeUser(s, u), u) == MergeUser(s, u)
  {
  }

  /** A later merge on the same id replaces the earlier one's properties. */
  lemma MergeUserLastWins(s: Snapshot, u: User, v: User)
    requires u.id == v.id
    ensures MergeUser(MergeUser(s, u), v) == MergeUser(s, v)
  {
  }

  /** Merging a sequence of users, one after the other. */
  function MergeUsers(s: Snapshot, us: seq<User>): (r: Snapshot)
    decreases |us|
  {
    if us == [] then s else MergeUsers(MergeUser(s, us[0]), us[1..])
  }

  /** The ids of a sequence of users. */
  function Ids(us: seq<User>): (r: set<UserId>)
    ensures forall i :: 0 <= i < |us| ==> us[i].id in r
    ensures forall id :: id in r ==> exists i :: 0 <= i < |us| && us[i].id == id
  {
    if us == [] then {} else {us[0].id} + Ids(us[1..])
  }

  /** The nodes a sequence of User merges leaves: the ids present or merged, each under its own id. */
  lemma {:induction false} MergeUsersKeys(s: Snapshot, us: seq<User>)
    requires forall id :: id in s.users ==> s.users[id].id == id
    ensures var r := MergeUsers(s, us);
      && r.users.Keys == s.users.Keys + Ids(us)
      && (forall id :: id in r.users ==> r.users[id].id == id)
      && r.groups == s.groups && r.follows == s.follows && r.subscribes == s.subscribes
    decreases |us|
  {
    if us != [] {
      var s' := MergeUser(s, us[0]);
      MergeUsersKeys(s', us[1..]);
      assert MergeUsers(s, us) == MergeUsers(s', us[1..]);
      assert Ids(us) == {us[0].id} + Ids(us[1..]);
    }
  }

  /**
   * Merging is keyed on id: after any sequence of User merges there is one
   * node per id merged or already present, stored under that id; every
   * user merged that no later user overrides (the last one in particular)
   * is the one stored under its id, and ids not merged keep their node.
   */
  lemma MergeUsersKeyed(s: Snapshot, us: seq<User>)
    requires forall id :: id in s.users ==> s.users[id].id == id
    ensures var r := MergeUsers(s, us);
      && r.users.Keys == s.users.Keys + Ids(us)
      && (forall id :: id in r.users ==> r.users[id].id == id)
      && (forall i :: 0 <= i < |us| && LastFor(us, i) ==> r.users[us[i].id] == us[i])
      && (us != [] ==> r.users[us[|us| - 1].id] == us[|us| - 1])
      && (forall id :: id in s.users && id !in Ids(us) ==> r.users[id] == s.users[id])
      && r.groups == s.groups && r.follows == s.follows && r.subscribes == s.subscribes
  {
    MergeUsersKeys(s, us);
    MergeUsersLatestStored(s, us);
    if us != [] {
      assert LastFor(us, |us| - 1);
    }
    forall id | id in s.users && id !in Ids(us) ensures MergeUsers(s, us).users[id] == s.users[id] {
      MergeUsersUntouched(s, us, id);
    }
  }

  /** An id that no user in `us` carries is left as it was by merging `us`. */
  lemma {:induction false} MergeUsersUntouched(s: Snapshot, us: seq<User>, id: UserId)
    requires forall j :: 0 <= j < |us| ==> us[j].id != id
    ensures var r := MergeUsers(s, us);
      (id in r.users <==> id in s.users) && (id in s.users ==> r.users[id] == s.users[id])
    decreases |us|
  {
    if us != [] {
      var t := us[1..];
      assert forall j :: 0 <= j < |t| ==> t[j].id != id by {
        forall j | 0 <= j < |t| ensures t[j].id != id { assert t[j] == us[j + 1]; }
      }
      MergeUsersUntouched(MergeUser(s, us[0]), t, id);
    }
  }

  /** No user after position `i` of `us` carries the id of `us[i]`. */
  predicate LastFor(us: seq<User>, i: int)
    requires 0 <= i < |us|
  {
    forall j :: i < j < |us| ==> us[j].id != us[i].id
  }

  /** A user merged that no later user in the sequence overrides is the node stored under its id. */
  lemma {:induction false} MergeUsersLatestAt(s: Snapshot, us: seq<User>, i: int)
    requires 0 <= i < |us| && LastFor(us, i)
    ensures var r := MergeUsers(s, us); us[i].id in r.users && r.users[us[i].id] == us[i]
    decreases |us|
  {
    var s' := MergeUser(s, us[0]);
    var t := us[1..];
    assert MergeUsers(s, us) == MergeUsers(s', t);
    if i == 0 {
      assert forall j :: 0 <= j < |t| ==> t[j].id != us[0].id by {
        forall j | 0 <= j < |t| ensures t[j].id != us[0].id { assert t[j] == us[j + 1]; }
      }
      MergeUsersUntouched(s', t, us[0].id);
    } else {
      assert t[i - 1] == us[i];
      assert LastFor(t, i - 1) by {
        forall j | i - 1 < j < |t| ensures t[j].id != t[i - 1].id { assert t[j] == us[j + 1]; }
      }
      MergeUsersLatestAt(s', t, i - 1);
    }
  }

  /**
   * Every user merged that no later user overrides is the node stored
   * under its id: each id merged ends up holding the last record merged
   * for it.
   */
  lemma MergeUsersLatestStored(s: Snapshot, us: seq<User>)
    ensures var r := MergeUsers(s, us);
      forall i :: 0 <= i < |us| && LastFor(us, i) ==> us[i].id in r.users && r.users[us[i].id] == us[i]
  {
    forall i | 0 <= i < |us| && LastFor(us, i)
      ensures us[i].id in MergeUsers(s, us).users && MergeUsers(s, us).users[us[i].id] == us[i]
    {
      MergeUsersLatestAt(s, us, i);
    }
  }

  /**
   * The store. `clear_database` empties it; the merges do what the
   * functions above say.
   */
  class GraphStore {
    var users: map<UserId, User>
    var groups: map<GroupId, Group>
    var follows: set<(UserId, UserId)>
    var subscribes: set<Subscribe>

    function Model(): Snapshot
      reads this
    {
      Snapshot(users, groups, follows, subscribes)
    }

    constructor ()
      ensures Model() == Empty
    {
      users, groups, follows, subscribes := map[], map[], {}, {};
    }

    /** `clear_database`: every node and relationship is deleted. */
    method Clear()
      modifies this
      ensures Model() == Empty
    {
      users, groups, follows, subscribes := map[], map[], {}, {};
    }

    method MergeUserNode(u: User)
      modifies this
      ensures Model() == MergeUser(old(Model()), u)
    {
      users := users[u.id := u];
    }

    method MergeGroupNode(g: Group)
      modifies this
      ensures Model() == MergeGroup(old(Model()), g)
    {
      groups := groups[g.id := g];
    }

    method MergeFollowEdge(from: UserId, to: UserId)
      modifies this
      ensures Model() == MergeFollow(old(Model()), from, to)
    {
      follows := follows + {(from, to)};
    }

    method MergeSubscribeEdge(from: UserId, to: Target)
      modifies this
      ensures Model() == MergeSubscribe(old(Model()), from, to)
    {
      subscribes := subscribes + {Subscribe(from, to)};
    }
  }
}
