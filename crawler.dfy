/**
 * The bounded-depth crawl of `process_user`. `Visit` and its three loops
 * say, as functions, what one call does to the store and which requests it
 * sends; `ProcessUser` is the crawl itself, proved to do exactly that.
 */
module Crawler {
  import opened Wrappers
  import opened VkApi
  import opened GraphStore

  /** The depth `process_user` uses when the caller gives none. */
  const DefaultDepth: int := 2

  /**
   * The User record `create_user_node` builds from a VK user item, each
   * missing field defaulted on its own: `screen_name` to "", each half of
   * the name to "" (so the name always holds the separating space), and the
   * city to "" when either `city` or its `title` is missing.
   */
  function MakeUser(u: ApiUser): (r: User)
    ensures r.id == u.id
    ensures u.screenName.Some? ==> r.screenName == u.screenName.value
    ensures u.screenName.None? ==> r.screenName == ""
    ensures var first, last := u.firstName.GetOr(""), u.lastName.GetOr("");
      && |r.name| == |first| + 1 + |last|
      && r.name[..|first|] == first
      && r.name[|first|] == ' '
      && r.name[|first| + 1..] == last
    ensures u.city.Some? && u.city.value.title.Some? ==> r.city == u.city.value.title.value
    ensures u.city.None? || u.city.value.title.None? ==> r.city == ""
  {
    var city := match u.city
      case None => ""
      case Some(c) => c.title.GetOr("");
    User(u.id, u.screenName.GetOr(""), u.firstName.GetOr("") + " " + u.lastName.GetOr(""), city)
  }

  /** A user with neither first nor last name gets the name " ". */
  lemma NamelessUser(u: ApiUser)
    requires u.firstName.None? && u.lastName.None?
    ensures MakeUser(u).name == " "
  {
  }

  /** The Group record built from a group item; its fields are taken as they are. */
  function MakeGroup(item: ApiGroup): (g: Group)
    ensures g.id == item.id && g.screenName == item.screenName && g.name == item.name
  {
    Group(item.id, item.screenName, item.name)
  }

  /** The store together with the requests sent so far. */
  datatype World = World(store: Snapshot, calls: seq<Call>)

  /**
   * `process_user(userId, depth)`: nothing at depth 0 or below; otherwise
   * fetch the profile and stop if there is none; merge the user; then for
   * each follower merge it, add follower -> user, and crawl it one level
   * down; then the same for each subscription with user -> subscription;
   * then merge each group with user -> group, without crawling it.
   * The relationships attach to the id in the profile, while the lists are
   * fetched for `userId`.
   */
  function Visit(o: Oracle, w: World, userId: UserId, depth: int): World
    decreases depth, 2
  {
    if depth <= 0 then w
    else
      var w1 := w.(calls := w.calls + [UsersGet(userId)]);
      match ProfileOf(Lookup(o.usersGet, userId))
      case None => w1
      case Some(data) => Expand(o, w1, data, userId, depth)
  }

  /** The rest of `process_user` once the profile `data` of `userId` is known. */
  function Expand(o: Oracle, w: World, data: ApiUser, userId: UserId, depth: nat): World
    decreases depth, 1
  {
    var me := MakeUser(data);
    var w3 := FollowerLoop(o, World(MergeUser(w.store, me), w.calls + [UsersGetFollowers(userId)]),
                           ItemsOf(Lookup(o.followers, userId)), me.id, depth);
    var w5 := SubscriptionLoop(o, w3.(calls := w3.calls + [UsersGetSubscriptions(userId)]),
                               ItemsOf(Lookup(o.subscriptions, userId)), me.id, depth);
    World(GroupLoop(w5.store, ItemsOf(Lookup(o.groupsGet, userId)), me.id), w5.calls + [GroupsGet(userId)])
  }

  /** The follower loop of a user visited at `depth`. */
  function FollowerLoop(o: Oracle, w: World, items: seq<ApiUser>, target: UserId, depth: nat): World
    decreases depth, 0, |items|
  {
    if items == [] then w
    else
      var f := MakeUser(items[0]);
      var w1 := w.(store := MergeFollow(MergeUser(w.store, f), f.id, target));
      FollowerLoop(o, Visit(o, w1, items[0].id, depth - 1), items[1..], target, depth)
  }

  /** The subscription loop of a user visited at `depth`; every item is taken as a user. */
  function SubscriptionLoop(o: Oracle, w: World, items: seq<ApiUser>, member: UserId, depth: nat): World
    decreases depth, 0, |items|
  {
    if items == [] then w
    else
      var u := MakeUser(items[0]);
      var w1 := w.(store := MergeSubscribe(MergeUser(w.store, u), member, UserNode(u.id)));
      SubscriptionLoop(o, Visit(o, w1, items[0].id, depth - 1), items[1..], member, depth)
  }

  /** The group loop: merges only, no requests, no recursion. */
  function GroupLoop(s: Snapshot, items: seq<ApiGroup>, member: UserId): Snapshot
    decreases |items|
  {
    if items == [] then s
    else
      var g := MakeGroup(items[0]);
      GroupLoop(MergeSubscribe(MergeGroup(s, g), member, GroupNode(g.id)), items[1..], member)
  }

  /**
   * `process_user`: crawls from `userId` through `api`, writing into
   * `store`. The new store and the requests sent are those of `Visit`.
   */
  method ProcessUser(api: VkClient, store: GraphStore, userId: UserId, depth: int)
    modifies api, store
    ensures World(store.Model(), api.log) == Visit(api.oracle, World(old(store.Model()), old(api.log)), userId, depth)
    decreases depth, 2
  {
    if depth <= 0 {
      return;
    }
    var userInfo := api.GetUserInfo(userId);
    var profile := ProfileOf(userInfo);
    if profile.None? {
      return;
    }
    var me := MakeUser(profile.value);
    store.MergeUserNode(me);

    var followers := api.GetFollowers(userId);
    CrawlFollowers(api, store, ItemsOf(followers), me.id, depth);

    var subscriptions := api.GetSubscriptions(userId);
    CrawlSubscriptions(api, store, ItemsOf(subscriptions), me.id, depth);

    var groups := api.GetGroups(userId);
    MergeGroups(store, ItemsOf(groups), me.id);
  }

  /** The follower loop: merge each follower, add its Follow to `target`, crawl it. */
  method CrawlFollowers(api: VkClient, store: GraphStore, items: seq<ApiUser>, target: UserId, depth: nat)
    modifies api, store
    ensures World(store.Model(), api.log)
         == FollowerLoop(api.oracle, World(old(store.Model()), old(api.log)), items, target, depth)
    decreases depth, 1
  {
    for i := 0 to |items|
      invariant FollowerLoop(api.oracle, World(store.Model(), api.log), items[i..], target, depth)
             == FollowerLoop(api.oracle, World(old(store.Model()), old(api.log)), items, target, depth)
    {
      var follower := MakeUser(items[i]);
      store.MergeUserNode(follower);
      store.MergeFollowEdge(follower.id, target);
      ProcessUser(api, store, items[i].id, depth - 1);
      assert items[i..][1..] == items[i + 1..];
    }
  }

  /** The subscription loop: merge each subscription, add the Subscribe from `member`, crawl it. */
  method CrawlSubscriptions(api: VkClient, store: GraphStore, items: seq<ApiUser>, member: UserId, depth: nat)
    modifies api, store
    ensures World(store.Model(), api.log)
         == SubscriptionLoop(api.oracle, World(old(store.Model()), old(api.log)), items, member, depth)
    decreases depth, 1
  {
    for i := 0 to |items|
      invariant SubscriptionLoop(api.oracle, World(store.Model(), api.log), items[i..], member, depth)
             == SubscriptionLoop(api.oracle, World(old(store.Model()), old(api.log)), items, member, depth)
    {
      var subscription := MakeUser(items[i]);
      store.MergeUserNode(subscription);
      store.MergeSubscribeEdge(member, UserNode(subscription.id));
      ProcessUser(api, store, items[i].id, depth - 1);
      assert items[i..][1..] == items[i + 1..];
    }
  }

  /** The group loop: merge each group and its Subscribe from `member`. */
  method MergeGroups(store: GraphStore, items: seq<ApiGroup>, member: UserId)
    modifies store
    ensures store.Model() == GroupLoop(old(store.Model()), items, member)
  {
    for i := 0 to |items|
      invariant GroupLoop(store.Model(), items[i..], member) == GroupLoop(old(store.Model()), items, member)
    {
      var group := MakeGroup(items[i]);
      store.MergeGroupNode(group);
      store.MergeSubscribeEdge(member, GroupNode(group.id));
      assert items[i..][1..] == items[i + 1..];
    }
  }

  // ---------------------------------------------------------------------
  // Properties of the crawl
  // ---------------------------------------------------------------------

  /** At depth 0 or below nothing is requested and nothing is written. */
  lemma DepthExhausted(o: Oracle, w: World, userId: UserId, depth: int)
    requires depth <= 0
    ensures Visit(o, w, userId, depth) == w
  {
  }

  /**
   * Without a profile (no reply, no `response`, or an empty list) only the
   * profile is requested: followers, subscriptions and groups are never
   * fetched, and the store is unchanged.
   */
  lemma ProfileMissing(o: Oracle, w: World, userId: UserId, depth: int)
    requires depth > 0
    requires var d := Lookup(o.usersGet, userId); d.response.None? || d.response.value == []
    ensures Visit(o, w, userId, depth) == World(w.store, w.calls + [UsersGet(userId)])
  {
  }

  /**
   * The crawl only adds: no node or relationship is removed, the requests
   * already sent stay, and a well-formed store stays well-formed (every node
   * under its own id, every relationship between existing nodes).
   */
  lemma {:induction false} VisitMonotone(o: Oracle, w: World, userId: UserId, depth: int)
    ensures var r := Visit(o, w, userId, depth);
      Within(w.store, r.store) && w.calls <= r.calls && (Wf(w.store) ==> Wf(r.store))
    decreases depth, 2
  {
    if depth > 0 {
      var w1 := w.(calls := w.calls + [UsersGet(userId)]);
      match ProfileOf(Lookup(o.usersGet, userId))
      case None =>
      case Some(data) => ExpandMonotone(o, w1, data, userId, depth);
    }
  }

  lemma {:induction false} ExpandMonotone(o: Oracle, w: World, data: ApiUser, userId: UserId, depth: nat)
    ensures var r := Expand(o, w, data, userId, depth);
      Within(w.store, r.store) && w.calls <= r.calls && (Wf(w.store) ==> Wf(r.store))
    decreases depth, 1
  {
    var me := MakeUser(data);
    var w2 := World(MergeUser(w.store, me), w.calls + [UsersGetFollowers(userId)]);
    assert Within(w.store, w2.store) && w.calls <= w2.calls;
    if Wf(w.store) {
      MergeUserKeepsWf(w.store, me);
    }
    FollowerLoopMonotone(o, w2, ItemsOf(Lookup(o.followers, userId)), me.id, depth);
    var w3 := FollowerLoop(o, w2, ItemsOf(Lookup(o.followers, userId)), me.id, depth);
    var w4 := w3.(calls := w3.calls + [UsersGetSubscriptions(userId)]);
    assert me.id in w4.store.users;
    SubscriptionLoopMonotone(o, w4, ItemsOf(Lookup(o.subscriptions, userId)), me.id, depth);
    var w5 := SubscriptionLoop(o, w4, ItemsOf(Lookup(o.subscriptions, userId)), me.id, depth);
    GroupLoopMonotone(w5.store, ItemsOf(Lookup(o.groupsGet, userId)), me.id);
    var r := World(GroupLoop(w5.store, ItemsOf(Lookup(o.groupsGet, userId)), me.id), w5.calls + [GroupsGet(userId)]);
    assert r == Expand(o, w, data, userId, depth);
    assert Within(w.store, w4.store) && w.calls <= w4.calls;
    assert Within(w.store, r.store) && w.calls <= r.calls;
  }

  lemma {:induction false} FollowerLoopMonotone(o: Oracle, w: World, items: seq<ApiUser>, target: UserId, depth: nat)
    ensures var r := FollowerLoop(o, w, items, target, depth);
      && Within(w.store, r.store) && w.calls <= r.calls
      && (Wf(w.store) && target in w.store.users ==> Wf(r.store))
    decreases depth, 0, |items|
  {
    if items != [] {
      var f := MakeUser(items[0]);
      var w1 := w.(store := MergeFollow(MergeUser(w.store, f), f.id, target));
      VisitMonotone(o, w1, items[0].id, depth - 1);
      FollowerLoopMonotone(o, Visit(o, w1, items[0].id, depth - 1), items[1..], target, depth);
    }
  }

  lemma {:induction false} SubscriptionLoopMonotone(o: Oracle, w: World, items: seq<ApiUser>, member: UserId, depth: nat)
    ensures var r := SubscriptionLoop(o, w, items, member, depth);
      && Within(w.store, r.store) && w.calls <= r.calls
      && (Wf(w.store) && member in w.store.users ==> Wf(r.store))
    decreases depth, 0, |items|
  {
    if items != [] {
      var u := MakeUser(items[0]);
      var w1 := w.(store := MergeSubscribe(MergeUser(w.store, u), member, UserNode(u.id)));
      VisitMonotone(o, w1, items[0].id, depth - 1);
      SubscriptionLoopMonotone(o, Visit(o, w1, items[0].id, depth - 1), items[1..], member, depth);
    }
  }

  lemma {:induction false} GroupLoopMonotone(s: Snapshot, items: seq<ApiGroup>, member: UserId)
    ensures var r := GroupLoop(s, items, member);
      Within(s, r) && r.users == s.users && r.follows == s.follows && (Wf(s) && member in s.users ==> Wf(r))
    decreases |items|
  {
    if items != [] {
      var g := MakeGroup(items[0]);
      GroupLoopMonotone(MergeSubscribe(MergeGroup(s, g), member, GroupNode(g.id)), items[1..], member);
    }
  }

  /** A visit at positive depth starts by requesting the profile. */
  lemma VisitRequestsProfileFirst(o: Oracle, w: World, userId: UserId, depth: int)
    requires depth > 0
    ensures w.calls + [UsersGet(userId)] <= Visit(o, w, userId, depth).calls
  {
    var w1 := w.(calls := w.calls + [UsersGet(userId)]);
    match ProfileOf(Lookup(o.usersGet, userId))
    case None =>
    case Some(data) => ExpandMonotone(o, w1, data, userId, depth);
  }

  /** Each follower is in the store afterwards, with its Follow to `target`. */
  lemma {:induction false} FollowerLoopRecords(o: Oracle, w: World, items: seq<ApiUser>, target: UserId, depth: nat)
    ensures var r := FollowerLoop(o, w, items, target, depth);
      forall f :: f in items ==> f.id in r.store.users && (f.id, target) in r.store.follows
    decreases |items|
  {
    if items != [] {
      var f := MakeUser(items[0]);
      var w1 := w.(store := MergeFollow(MergeUser(w.store, f), f.id, target));
      var v := Visit(o, w1, items[0].id, depth - 1);
      VisitMonotone(o, w1, items[0].id, depth - 1);
      FollowerLoopMonotone(o, v, items[1..], target, depth);
      FollowerLoopRecords(o, v, items[1..], target, depth);
    }
  }

  /** Each subscription is in the store afterwards, with the Subscribe from `member`. */
  lemma {:induction false} SubscriptionLoopRecords(o: Oracle, w: World, items: seq<ApiUser>, member: UserId, depth: nat)
    ensures var r := SubscriptionLoop(o, w, items, member, depth);
      forall u :: u in items ==> u.id in r.store.users && Subscribe(member, UserNode(u.id)) in r.store.subscribes
    decreases |items|
  {
    if items != [] {
      var u := MakeUser(items[0]);
      var w1 := w.(store := MergeSubscribe(MergeUser(w.store, u), member, UserNode(u.id)));
      var v := Visit(o, w1, items[0].id, depth - 1);
      VisitMonotone(o, w1, items[0].id, depth - 1);
      SubscriptionLoopMonotone(o, v, items[1..], member, depth);
      SubscriptionLoopRecords(o, v, items[1..], member, depth);
    }
  }

  /** Each group is in the store afterwards, with the Subscribe from `member`. */
  lemma {:induction false} GroupLoopRecords(s: Snapshot, items: seq<ApiGroup>, member: UserId)
    ensures var r := GroupLoop(s, items, member);
      forall g :: g in items ==> g.id in r.groups && Subscribe(member, GroupNode(g.id)) in r.subscribes
    decreases |items|
  {
    if items != [] {
      var g := MakeGroup(items[0]);
      var s1 := MergeSubscribe(MergeGroup(s, g), member, GroupNode(g.id));
      GroupLoopMonotone(s1, items[1..], member);
      GroupLoopRecords(s1, items[1..], member);
    }
  }

  /**
   * A visit that finds a profile stores the user and every follower,
   * subscription and group listed for it, with follower -> user,
   * user -> subscription and user -> group; fetching the groups is the last
   * request it makes, so no group is ever crawled.
   */
  lemma VisitRecordsNeighbours(o: Oracle, w: World, userId: UserId, depth: int, data: ApiUser)
    requires depth > 0 && ProfileOf(Lookup(o.usersGet, userId)) == Some(data)
    ensures var r := Visit(o, w, userId, depth);
      && data.id in r.store.users
      && (forall f :: f in ItemsOf(Lookup(o.followers, userId)) ==>
            f.id in r.store.users && (f.id, data.id) in r.store.follows)
      && (forall u :: u in ItemsOf(Lookup(o.subscriptions, userId)) ==>
            u.id in r.store.users && Subscribe(data.id, UserNode(u.id)) in r.store.subscribes)
      && (forall g :: g in ItemsOf(Lookup(o.groupsGet, userId)) ==>
            g.id in r.store.groups && Subscribe(data.id, GroupNode(g.id)) in r.store.subscribes)
      && r.calls != [] && r.calls[|r.calls| - 1] == GroupsGet(userId)
  {
    var me := MakeUser(data);
    var followers := ItemsOf(Lookup(o.followers, userId));
    var subscriptions := ItemsOf(Lookup(o.subscriptions, userId));
    var groups := ItemsOf(Lookup(o.groupsGet, userId));
    var w1 := w.(calls := w.calls + [UsersGet(userId)]);
    var w2 := World(MergeUser(w1.store, me), w1.calls + [UsersGetFollowers(userId)]);
    var w3 := FollowerLoop(o, w2, followers, me.id, depth);
    FollowerLoopMonotone(o, w2, followers, me.id, depth);
    FollowerLoopRecords(o, w2, followers, me.id, depth);
    var w4 := w3.(calls := w3.calls + [UsersGetSubscriptions(userId)]);
    var w5 := SubscriptionLoop(o, w4, subscriptions, me.id, depth);
    SubscriptionLoopMonotone(o, w4, subscriptions, me.id, depth);
    SubscriptionLoopRecords(o, w4, subscriptions, me.id, depth);
    GroupLoopMonotone(w5.store, groups, me.id);
    GroupLoopRecords(w5.store, groups, me.id);
    assert Visit(o, w, userId, depth) == World(GroupLoop(w5.store, groups, me.id), w5.calls + [GroupsGet(userId)]);
  }

  /** At depth 1 the crawled neighbours are at depth 0, so the loops send nothing. */
  lemma {:induction false} FollowerLoopAtDepthOne(o: Oracle, w: World, items: seq<ApiUser>, target: UserId)
    ensures FollowerLoop(o, w, items, target, 1).calls == w.calls
    decreases |items|
  {
    if items != [] {
      var f := MakeUser(items[0]);
      var w1 := w.(store := MergeFollow(MergeUser(w.store, f), f.id, target));
      FollowerLoopAtDepthOne(o, Visit(o, w1, items[0].id, 0), items[1..], target);
    }
  }

  lemma {:induction false} SubscriptionLoopAtDepthOne(o: Oracle, w: World, items: seq<ApiUser>, member: UserId)
    ensures SubscriptionLoop(o, w, items, member, 1).calls == w.calls
    decreases |items|
  {
    if items != [] {
      var u := MakeUser(items[0]);
      var w1 := w.(store := MergeSubscribe(MergeUser(w.store, u), member, UserNode(u.id)));
      SubscriptionLoopAtDepthOne(o, Visit(o, w1, items[0].id, 0), items[1..], member);
    }
  }

  /**
   * A visit at depth 1 that finds a profile makes exactly the four requests
   * for that user, in the order profile, followers, subscriptions, groups.
   */
  lemma DepthOneRequests(o: Oracle, w: World, userId: UserId)
    requires ProfileOf(Lookup(o.usersGet, userId)).Some?
    ensures Visit(o, w, userId, 1).calls
         == w.calls + [UsersGet(userId), UsersGetFollowers(userId), UsersGetSubscriptions(userId), GroupsGet(userId)]
  {
    var data := ProfileOf(Lookup(o.usersGet, userId)).value;
    var me := MakeUser(data);
    var w1 := w.(calls := w.calls + [UsersGet(userId)]);
    var w2 := World(MergeUser(w1.store, me), w1.calls + [UsersGetFollowers(userId)]);
    FollowerLoopAtDepthOne(o, w2, ItemsOf(Lookup(o.followers, userId)), me.id);
    var w3 := FollowerLoop(o, w2, ItemsOf(Lookup(o.followers, userId)), me.id, 1);
    var w4 := w3.(calls := w3.calls + [UsersGetSubscriptions(userId)]);
    SubscriptionLoopAtDepthOne(o, w4, ItemsOf(Lookup(o.subscriptions, userId)), me.id);
  }

  /** From depth 2 on, every follower listed is itself visited (its profile is requested). */
  lemma {:induction false} FollowerLoopCrawlsEach(o: Oracle, w: World, items: seq<ApiUser>, target: UserId, depth: nat)
    requires depth >= 2
    ensures var r := FollowerLoop(o, w, items, target, depth);
      w.calls <= r.calls && forall f :: f in items ==> UsersGet(f.id) in r.calls[|w.calls|..]
    decreases |items|
  {
    if items != [] {
      var f := MakeUser(items[0]);
      var w1 := w.(store := MergeFollow(MergeUser(w.store, f), f.id, target));
      var v := Visit(o, w1, items[0].id, depth - 1);
      VisitRequestsProfileFirst(o, w1, items[0].id, depth - 1);
      FollowerLoopMonotone(o, v, items[1..], target, depth);
      FollowerLoopCrawlsEach(o, v, items[1..], target, depth);
      var r := FollowerLoop(o, w, items, target, depth);
      assert r == FollowerLoop(o, v, items[1..], target, depth);
      assert r.calls[|w1.calls|] == UsersGet(items[0].id);
      var tail := r.calls[|v.calls|..];
      forall g | g in items ensures UsersGet(g.id) in r.calls[|w.calls|..] {
        if g == items[0] {
          assert r.calls[|w.calls|..][0] == UsersGet(items[0].id);
        } else {
          assert g in items[1..];
          var k :| 0 <= k < |tail| && tail[k] == UsersGet(g.id);
          assert r.calls[|w.calls|..][|v.calls| - |w.calls| + k] == tail[k];
        }
      }
    }
  }

  /** From depth 2 on, every subscription listed is itself visited. */
  lemma {:induction false} SubscriptionLoopCrawlsEach(o: Oracle, w: World, items: seq<ApiUser>, member: UserId, depth: nat)
    requires depth >= 2
    ensures var r := SubscriptionLoop(o, w, items, member, depth);
      w.calls <= r.calls && forall u :: u in items ==> UsersGet(u.id) in r.calls[|w.calls|..]
    decreases |items|
  {
    if items != [] {
      var u := MakeUser(items[0]);
      var w1 := w.(store := MergeSubscribe(MergeUser(w.store, u), member, UserNode(u.id)));
      var v := Visit(o, w1, items[0].id, depth - 1);
      VisitRequestsProfileFirst(o, w1, items[0].id, depth - 1);
      SubscriptionLoopMonotone(o, v, items[1..], member, depth);
      SubscriptionLoopCrawlsEach(o, v, items[1..], member, depth);
      var r := SubscriptionLoop(o, w, items, member, depth);
      assert r == SubscriptionLoop(o, v, items[1..], member, depth);
      assert r.calls[|w1.calls|] == UsersGet(items[0].id);
      var tail := r.calls[|v.calls|..];
      forall g | g in items ensures UsersGet(g.id) in r.calls[|w.calls|..] {
        if g == items[0] {
          assert r.calls[|w.calls|..][0] == UsersGet(items[0].id);
        } else {
          assert g in items[1..];
          var k :| 0 <= k < |tail| && tail[k] == UsersGet(g.id);
          assert r.calls[|w.calls|..][|v.calls| - |w.calls| + k] == tail[k];
        }
      }
    }
  }

  /**
   * What a visit writes does not depend on the requests sent before it, and
   * the requests it sends are appended to them.
   */
  lemma {:induction false} VisitIgnoresHistory(o: Oracle, s: Snapshot, c: seq<Call>, userId: UserId, depth: int)
    ensures var clean := Visit(o, World(s, []), userId, depth);
      Visit(o, World(s, c), userId, depth) == World(clean.store, c + clean.calls)
    decreases depth, 3
  {
    if depth > 0 {
      var p := [UsersGet(userId)];
      assert [] + p == p;
      match ProfileOf(Lookup(o.usersGet, userId))
      case None =>
      case Some(data) =>
        ExpandIgnoresHistory(o, s, c + p, data, userId, depth);
        ExpandIgnoresHistory(o, s, p, data, userId, depth);
        var e := Expand(o, World(s, []), data, userId, depth);
        assert Visit(o, World(s, c), userId, depth) == World(e.store, c + p + e.calls);
        assert Visit(o, World(s, []), userId, depth) == World(e.store, p + e.calls);
        assert c + p + e.calls == c + (p + e.calls);
    }
  }

  lemma {:induction false} ExpandIgnoresHistory(o: Oracle, s: Snapshot, c: seq<Call>, data: ApiUser, userId: UserId, depth: nat)
    ensures var clean := Expand(o, World(s, []), data, userId, depth);
      Expand(o, World(s, c), data, userId, depth) == World(clean.store, c + clean.calls)
    decreases depth, 2
  {
    var me := MakeUser(data);
    var s2 := MergeUser(s, me);
    var fl := ItemsOf(Lookup(o.followers, userId));
    var pf := [UsersGetFollowers(userId)];
    assert [] + pf == pf;
    var f := FollowerLoop(o, World(s2, []), fl, me.id, depth);
    FollowerLoopIgnoresHistory(o, s2, c + pf, fl, me.id, depth);
    FollowerLoopIgnoresHistory(o, s2, pf, fl, me.id, depth);
    ExpandTailIgnoresHistory(o, f.store, c + pf, f.calls, userId, me.id, depth);
    ExpandTailIgnoresHistory(o, f.store, pf, f.calls, userId, me.id, depth);
    var tail := ExpandTail(o, World(f.store, f.calls), userId, me.id, depth);
    assert Expand(o, World(s, c), data, userId, depth) == World(tail.store, c + pf + tail.calls);
    assert Expand(o, World(s, []), data, userId, depth) == World(tail.store, pf + tail.calls);
    assert c + pf + tail.calls == c + (pf + tail.calls);
  }

  /** The part of `Expand` after the follower loop, as a world transformer (used only in proofs). */
  ghost function ExpandTail(o: Oracle, w3: World, userId: UserId, member: UserId, depth: nat): World
  {
    var w5 := SubscriptionLoop(o, w3.(calls := w3.calls + [UsersGetSubscriptions(userId)]),
                               ItemsOf(Lookup(o.subscriptions, userId)), member, depth);
    World(GroupLoop(w5.store, ItemsOf(Lookup(o.groupsGet, userId)), member), w5.calls + [GroupsGet(userId)])
  }

  lemma {:induction false} ExpandTailIgnoresHistory(o: Oracle, st: Snapshot, c: seq<Call>, done: seq<Call>, userId: UserId, member: UserId, depth: nat)
    ensures var clean := ExpandTail(o, World(st, done), userId, member, depth);
      ExpandTail(o, World(st, c + done), userId, member, depth) == World(clean.store, c + clean.calls)
    decreases depth, 1
  {
    var sl := ItemsOf(Lookup(o.subscriptions, userId));
    var ps, pg := [UsersGetSubscriptions(userId)], [GroupsGet(userId)];
    var g := SubscriptionLoop(o, World(st, []), sl, member, depth);
    SubscriptionLoopIgnoresHistory(o, st, c + done + ps, sl, member, depth);
    SubscriptionLoopIgnoresHistory(o, st, done + ps, sl, member, depth);
    assert c + done + ps + g.calls + pg == c + (done + ps + g.calls + pg);
  }

  lemma {:induction false} FollowerLoopIgnoresHistory(o: Oracle, s: Snapshot, c: seq<Call>, items: seq<ApiUser>, target: UserId, depth: nat)
    ensures var clean := FollowerLoop(o, World(s, []), items, target, depth);
      FollowerLoop(o, World(s, c), items, target, depth) == World(clean.store, c + clean.calls)
    decreases depth, 0, |items|
  {
    if items != [] {
      var f := MakeUser(items[0]);
      var s1 := MergeFollow(MergeUser(s, f), f.id, target);
      VisitIgnoresHistory(o, s1, c, items[0].id, depth - 1);
      var v := Visit(o, World(s1, []), items[0].id, depth - 1);
      FollowerLoopIgnoresHistory(o, v.store, c + v.calls, items[1..], target, depth);
      FollowerLoopIgnoresHistory(o, v.store, v.calls, items[1..], target, depth);
      var q := FollowerLoop(o, World(v.store, []), items[1..], target, depth);
      assert c + v.calls + q.calls == c + (v.calls + q.calls);
    }
  }

  lemma {:induction false} SubscriptionLoopIgnoresHistory(o: Oracle, s: Snapshot, c: seq<Call>, items: seq<ApiUser>, member: UserId, depth: nat)
    ensures var clean := SubscriptionLoop(o, World(s, []), items, member, depth);
      SubscriptionLoop(o, World(s, c), items, member, depth) == World(clean.store, c + clean.calls)
    decreases depth, 0, |items|
  {
    if items != [] {
      var u := MakeUser(items[0]);
      var s1 := MergeSubscribe(MergeUser(s, u), member, UserNode(u.id));
      VisitIgnoresHistory(o, s1, c, items[0].id, depth - 1);
      var v := Visit(o, World(s1, []), items[0].id, depth - 1);
      SubscriptionLoopIgnoresHistory(o, v.store, c + v.calls, items[1..], member, depth);
      SubscriptionLoopIgnoresHistory(o, v.store, v.calls, items[1..], member, depth);
      var q := SubscriptionLoop(o, World(v.store, []), items[1..], member, depth);
      assert c + v.calls + q.calls == c + (v.calls + q.calls);
    }
  }

  /**
   * Crawling the same seed twice, each time from an emptied store, yields
   * the same nodes and relationships and sends the same requests.
   */
  lemma CrawlReproducible(o: Oracle, c1: seq<Call>, c2: seq<Call>, seed: UserId, depth: int)
    ensures Visit(o, World(Empty, c1), seed, depth).store == Visit(o, World(Empty, c2), seed, depth).store
    ensures c1 <= Visit(o, World(Empty, c1), seed, depth).calls && c2 <= Visit(o, World(Empty, c2), seed, depth).calls
    ensures Visit(o, World(Empty, c1), seed, depth).calls[|c1|..] == Visit(o, World(Empty, c2), seed, depth).calls[|c2|..]
  {
    VisitIgnoresHistory(o, Empty, c1, seed, depth);
    VisitIgnoresHistory(o, Empty, c2, seed, depth);
    var clean := Visit(o, World(Empty, []), seed, depth);
    assert (c1 + clean.calls)[|c1|..] == clean.calls;
    assert (c2 + clean.calls)[|c2|..] == clean.calls;
  }
}
