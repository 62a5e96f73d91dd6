/**
 * The driver (`main`): empty the store, crawl from the seed at the default
 * depth, then run the queries. Two small crawls are worked out in full.
 */
module App {
  import opened Wrappers
  import opened VkApi
  import opened GraphStore
  import opened Crawler
  import opened Queries

  /** What `main` reports after the crawl. */
  datatype Report = Report(
    userCount: nat,
    groupCount: nat,
    topFollowed: seq<RankRow>,
    topGroups: seq<RankRow>,
    mutual: set<MutualRow>)

  /**
   * `main(user_id)`: whatever the store held before, it ends up holding the
   * crawl from `seed` at depth 2 over an empty store.
   */
  method Run(api: VkClient, store: GraphStore, seed: UserId) returns (report: Report)
    modifies api, store
    ensures World(store.Model(), api.log) == Visit(api.oracle, World(Empty, old(api.log)), seed, DefaultDepth)
    ensures report == Report(|store.users|, |store.groups|, TopFollowed(store.Model()),
                             TopGroups(store.Model()), MutualFollowers(store.Model()))
  {
    store.Clear();
    ProcessUser(api, store, seed, DefaultDepth);
    var s := store.Model();
    report := Report(|s.users|, |s.groups|, TopFollowed(s), TopGroups(s), MutualFollowers(s));
  }

  /** A user item with only an id. */
  function Bare(id: UserId): ApiUser {
    ApiUser(id, None, None, None, None)
  }

  /** A reply to users.get holding one profile. */
  function Profile(u: ApiUser): Doc<seq<ApiUser>> {
    Doc(Some([u]), None)
  }

  /** A reply to a list endpoint holding `items`. */
  function Items<T>(items: seq<T>): Doc<Listing<T>> {
    Doc(Some(Listing(Some(items))), None)
  }

  /** Seed 100 with one follower, 200, crawled at depth 1. */
  const OneFollower: Oracle := Oracle(
    map[100 := Profile(Bare(100)), 200 := Profile(Bare(200))],
    map[100 := Items([Bare(200)])],
    map[],
    map[])

  /**
   * Crawling it at depth 1 stores users 100 and 200 and the relationship
   * 200 -> 100, fetches nothing for 200, and the top-5 query lists user 100
   * with one follower.
   */
  lemma OneFollowerScenario()
    ensures var r := Visit(OneFollower, World(Empty, []), 100, 1);
      && r.store == Snapshot(map[100 := User(100, "", " ", ""), 200 := User(200, "", " ", "")], map[], {(200, 100)}, {})
      && r.calls == [UsersGet(100), UsersGetFollowers(100), UsersGetSubscriptions(100), GroupsGet(100)]
      && TopFollowed(r.store) == [RankRow(100, " ", 1)]
  {
    var o := OneFollower;
    var u100, u200 := MakeUser(Bare(100)), MakeUser(Bare(200));
    NamelessUser(Bare(100));
    NamelessUser(Bare(200));
    var w := World(Empty, []);
    var w2 := World(MergeUser(Empty, u100), [UsersGet(100), UsersGetFollowers(100)]);
    var w1 := w2.(store := MergeFollow(MergeUser(w2.store, u200), 200, 100));
    assert Visit(o, w1, 200, 0) == w1;
    assert FollowerLoop(o, w2, [Bare(200)], 100, 1) == w1;
    var w4 := w1.(calls := w1.calls + [UsersGetSubscriptions(100)]);
    assert SubscriptionLoop(o, w4, [], 100, 1) == w4;
    DepthOneRequests(o, w, 100);
    var r := Visit(o, w, 100, 1);
    assert r.store == w1.store;
    var s := r.store;
    assert s == Snapshot(map[100 := User(100, "", " ", ""), 200 := User(200, "", " ", "")], map[], {(200, 100)}, {});
    assert Followers(s, 100) == {200};
    assert Followers(s, 200) == {};
    assert Followed(s) == {100};
    var rows := TopFollowed(s);
    assert |rows| == 1 && rows[0].id in Followed(s);
  }

  /** The chain 300 -> 200 -> 100, crawled from 100 at depth 2. */
  const Chain: Oracle := Oracle(
    map[100 := Profile(Bare(100)), 200 := Profile(Bare(200)), 300 := Profile(Bare(300))],
    map[100 := Items([Bare(200)]), 200 := Items([Bare(300)])],
    map[],
    map[])

  /**
   * Crawling it stores three users and the relationships 200 -> 100 and
   * 300 -> 200; nobody follows back, so there are no mutual followers.
   */
  lemma ChainScenario()
    ensures var r := Visit(Chain, World(Empty, []), 100, 2);
      && r.store.users.Keys == {100, 200, 300}
      && r.store.follows == {(200, 100), (300, 200)}
      && r.store.groups == map[] && r.store.subscribes == {}
      && MutualFollowers(r.store) == {}
  {
  }
}
